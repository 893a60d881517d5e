/** The root-package versions of the player and the lava, which neither
    game mode uses. They act on the same objects, bodies, sprites and
    animators as the newer versions; the player shoots with fixed forces
    and reloads with a 0.9 s penalty, and the lava measures its gap with
    `Game.toUnits`. */
module Legacy {
  import opened Vectors
  import Game
  import Animations
  import Motion
  import PlayerRules
  import LavaRules
  import Entities

  /** The root-package `PlayerBehaviour`. */
  class PlayerBehaviour {
    var gameObject: Entities.GameObject?
    var maxAmmo: int
    const shootAnimation: Animations.Animation
    var remainingAmmo: int
    const reloadPenaltyTime: real
    var body: Entities.PhysicsBody?
    var sprite: Entities.Sprite?
    var animator: Entities.Animator?
    var timer: real

    constructor (maxAmmo: int, shootAnimation: Animations.Animation, remainingAmmo: int := maxAmmo,
                 reloadPenaltyTime: real := 0.9)
      ensures gameObject == null && body == null && sprite == null && animator == null
      ensures this.maxAmmo == maxAmmo && this.shootAnimation == shootAnimation
      ensures this.remainingAmmo == remainingAmmo && this.reloadPenaltyTime == reloadPenaltyTime
      ensures timer == 0.0 && !Cooldown()
    {
      gameObject := null;
      body := null;
      sprite := null;
      animator := null;
      this.maxAmmo := maxAmmo;
      this.shootAnimation := shootAnimation;
      this.remainingAmmo := remainingAmmo;
      this.reloadPenaltyTime := reloadPenaltyTime;
      timer := 0.0;
    }

    /** The references `initialize` sets are there. */
    predicate Initialized()
      reads this`gameObject, this`body, this`sprite, this`animator
    {
      gameObject != null && body != null && sprite != null && animator != null
    }

    /** `initialize()`: looks up the body, the sprite and the animator on the
        owning object; `ok` is false where a missing one makes the source
        throw. */
    method Initialize() returns (ok: bool)
      requires gameObject != null
      modifies this`body, this`sprite, this`animator
      ensures ok <==> gameObject.GetComponent(Entities.BodyKind).Some? &&
                      gameObject.GetComponent(Entities.SpriteKind).Some? &&
                      gameObject.GetComponent(Entities.AnimatorKind).Some?
      ensures ok ==> Initialized() &&
                     body == gameObject.GetComponent(Entities.BodyKind).value.body &&
                     sprite == gameObject.GetComponent(Entities.SpriteKind).value.sprite &&
                     animator == gameObject.GetComponent(Entities.AnimatorKind).value.animator
    {
      ok := false;
      match gameObject.GetComponent(Entities.BodyKind) {
        case None => return;
        case Some(c) => body := c.body;
      }
      match gameObject.GetComponent(Entities.SpriteKind) {
        case None => return;
        case Some(c) => sprite := c.sprite;
      }
      match gameObject.GetComponent(Entities.AnimatorKind) {
        case None => return;
        case Some(c) => animator := c.animator;
      }
      ok := true;
    }

    /** `cooldown`. */
    predicate Cooldown()
      reads this`timer
    {
      PlayerRules.Cooldown(timer)
    }

    /** `shoot(quickShot)`: with a round left and no cooldown, pushes the
        body opposite its facing with 1500 (quick) or 950, sets the spin by
        the sprite's flip, spends a round and starts the shot animation;
        otherwise changes nothing. */
    method Shoot(quickShot: bool, direction: real -> Vec2)
      requires Initialized() && body.mass != 0.0
      modifies body`velocity, body`angleVelocity, this`remainingAmmo
      modifies animator`animation, animator.Held()`frameIndex, animator.Held()`timer
      ensures remainingAmmo == PlayerRules.AmmoAfterShot(old(remainingAmmo), timer)
      ensures PlayerRules.CanShoot(old(remainingAmmo), timer) ==>
                body.velocity == Motion.Impulse(old(body.velocity),
                                                PlayerRules.ShotImpulse(direction(gameObject.transform.rotation),
                                                                        PlayerRules.LegacyShotMagnitude(quickShot)),
                                                body.mass) &&
                body.angleVelocity == PlayerRules.SpinAfterShot(sprite.flipY) &&
                animator.animation == shootAnimation
      ensures PlayerRules.CanShoot(old(remainingAmmo), timer) && old(animator.animation) != null ==>
                old(animator.animation).frameIndex == 0 && old(animator.animation).timer == 0.0
      ensures !PlayerRules.CanShoot(old(remainingAmmo), timer) ==>
                body.velocity == old(body.velocity) && body.angleVelocity == old(body.angleVelocity) &&
                animator.animation == old(animator.animation) &&
                (animator.animation != null ==>
                   animator.animation.frameIndex == old(animator.animation.frameIndex) &&
                   animator.animation.timer == old(animator.animation.timer))
    {
      if remainingAmmo < 1 || PlayerRules.Cooldown(timer) {
        return;
      }
      Kick(quickShot, direction);
      remainingAmmo := remainingAmmo - 1;
      animator.SetAnimation(shootAnimation);
    }

    /** The force and the spin of a shot. */
    method Kick(quickShot: bool, direction: real -> Vec2)
      requires Initialized() && body.mass != 0.0
      modifies body`velocity, body`angleVelocity
      ensures body.velocity == Motion.Impulse(old(body.velocity),
                                              PlayerRules.ShotImpulse(direction(gameObject.transform.rotation),
                                                                      PlayerRules.LegacyShotMagnitude(quickShot)),
                                              body.mass)
      ensures body.angleVelocity == PlayerRules.SpinAfterShot(sprite.flipY)
    {
      var dir := direction(gameObject.transform.rotation);
      var force := dir.Neg().Times(if quickShot then 1500.0 else 950.0);
      body.AddForce(force);
      body.angleVelocity := 4.0 * PlayerRules.PI * (if sprite.flipY then 1.0 else -1.0);
    }

    /** `reload()`: a full magazine, and the penalty on the timer, so a
        positive penalty (0.9 s by default) blocks the next shot. */
    method Reload()
      modifies this`remainingAmmo, this`timer
      ensures remainingAmmo == maxAmmo && timer == reloadPenaltyTime
      ensures reloadPenaltyTime > 0.0 ==> Cooldown() && !PlayerRules.CanShoot(remainingAmmo, timer)
    {
      remainingAmmo := maxAmmo;
      timer := reloadPenaltyTime;
    }

    /** `update(deltaTime)`: counts the cooldown down, faces the sprite by
        the screen half, and clamps x into the screen with a bounce. */
    method Update(deltaTime: real, globals: Game.Globals)
      requires gameObject != null && body != null && sprite != null
      modifies this`timer, sprite`flipY, gameObject`transform, body`velocity, body`angleVelocity
      ensures timer == PlayerRules.CoolDown(old(timer), deltaTime)
      ensures sprite.flipY == PlayerRules.FacesLeftHalf(old(gameObject.transform.position.x), globals.screenWidth)
      ensures var c := PlayerRules.ClampToScreen(old(gameObject.transform.position.x), globals.screenWidth, sprite.bitmap.Width());
              gameObject.transform ==
                Entities.Transform(Vec2(c.x, old(gameObject.transform.position.y)), old(gameObject.transform.rotation)) &&
              (c.bounced ==> body.velocity == PlayerRules.BounceVelocity(old(body.velocity)) &&
                             body.angleVelocity == PlayerRules.BounceSpin(old(body.angleVelocity))) &&
              (!c.bounced ==> body.velocity == old(body.velocity) && body.angleVelocity == old(body.angleVelocity))
    {
      if timer > 0.0 {
        timer := timer - deltaTime;
      }
      sprite.flipY := gameObject.transform.position.x < globals.screenWidth as real / 2.0;
      var bounce := false;
      var width := sprite.bitmap.Width();
      var position := gameObject.transform.position;
      if position.x > (globals.screenWidth - width) as real {
        gameObject.transform := Entities.Transform(Vec2((globals.screenWidth - width) as real, position.y),
                                                   gameObject.transform.rotation);
        bounce := true;
      } else if position.x < width as real {
        gameObject.transform := Entities.Transform(Vec2(width as real, position.y), gameObject.transform.rotation);
        bounce := true;
      }
      if bounce {
        body.velocity := Vec2(body.velocity.x, body.velocity.y * 0.7);
        body.velocity := Vec2(body.velocity.x * -0.5, body.velocity.y);
        body.angleVelocity := body.angleVelocity * -0.5;
      }
    }
  }

  /** The root-package `LavaBehaviour`. `player` is the object whose
      transform the source shares as `playerTransform`. */
  class LavaBehaviour {
    var gameObject: Entities.GameObject?
    const lavaMinSpeed: real
    const player: Entities.GameObject
    const waveSpeed: real
    var xOffset: real

    constructor (lavaMinSpeed: real, player: Entities.GameObject, waveSpeed: real := LavaRules.WAVE_SPEED)
      ensures gameObject == null && this.lavaMinSpeed == lavaMinSpeed && this.player == player
      ensures this.waveSpeed == waveSpeed && xOffset == 0.0
    {
      gameObject := null;
      this.lavaMinSpeed := lavaMinSpeed;
      this.player := player;
      this.waveSpeed := waveSpeed;
      xOffset := 0.0;
    }

    /** `update(deltaTime)`: rises by `speed` (the gap measured in units,
        taken before the move) and advances the wave as `updateOffset` does.
        It moves the lava exactly as the newer version does. */
    method Update(deltaTime: real)
      requires gameObject != null
      modifies gameObject`transform, this`xOffset
      ensures gameObject.transform.rotation == old(gameObject.transform.rotation)
      ensures gameObject.transform.position ==
                LavaRules.Rise(old(gameObject.transform.position),
                  LavaRules.SpeedInUnits(old(gameObject.transform.position.y), old(player.transform.position.y), lavaMinSpeed),
                  deltaTime)
      ensures gameObject.transform.position ==
                LavaRules.Rise(old(gameObject.transform.position),
                  LavaRules.Speed(old(gameObject.transform.position.y), old(player.transform.position.y), lavaMinSpeed),
                  deltaTime)
      ensures xOffset == LavaRules.AdvanceWave(old(xOffset), waveSpeed, deltaTime)
    {
      var speed := LavaRules.SpeedInUnits(gameObject.transform.position.y, player.transform.position.y, lavaMinSpeed);
      LavaRules.SpeedVersionsAgree(gameObject.transform.position.y, player.transform.position.y, lavaMinSpeed);
      gameObject.transform := Entities.Transform(gameObject.transform.position.Plus(UP.Times(speed).Times(deltaTime)),
                                                 gameObject.transform.rotation);
      UpdateOffset(deltaTime);
    }

    /** `updateOffset(deltaTime)`: only the wave offset changes. */
    method UpdateOffset(deltaTime: real)
      modifies this`xOffset
      ensures xOffset == LavaRules.AdvanceWave(old(xOffset), waveSpeed, deltaTime)
    {
      xOffset := xOffset + waveSpeed * deltaTime;
    }
  }
}
