/** What the two game modes share: the gun-wielding player both of them
    build the same way, and the routing of a touch event to the touch
    handler. */
module Modes {
  import opened Vectors
  import opened Wrappers
  import Game
  import Physics
  import PlayerRules
  import Animations
  import Collision
  import Entities
  import Touch

  /** The actions of a touch event a game mode tells apart; every other
      action is `OtherAction`. */
  datatype Action = Down | Move | Up | OtherAction

  /** The gun sprite: the first 64 x 48 frame cut out of the sheet. */
  function GunSprite(sheet: Animations.Bitmap): (r: Animations.Bitmap)
    ensures r.Width() == 64 && r.Height() == 48
  {
    Animations.Region(sheet, Animations.IntRect(0, 0, 64, 48))
  }

  /** The radius of the player's collision circle: half the larger side of
      the 4.5-times scaled gun sprite, less 50 pixels. */
  const PLAYER_RADIUS: real := 94.0

  /** The player object both modes build: sprite, animator, a collision
      circle on the player layer that tests against enemies and sets `mode`
      to game over, a body, and the behaviour, attached in that order, so
      each `initialize` finds the siblings it looks up. */
  method BuildPlayer(mode: Entities.GameMode, sheet: Animations.Bitmap, maxAmmo: int, shootForce: real,
                     quickshotModifier: real, position: Vec2, rotation: real)
    returns (player: Entities.GameObject, sprite: Entities.Sprite, animator: Entities.Animator,
             shape: Entities.CollisionShape, body: Entities.PhysicsBody, behaviour: Entities.PlayerBehaviour,
             animation: Animations.Animation)
    ensures fresh(player) && fresh(sprite) && fresh(animator) && fresh(shape) && fresh(body)
    ensures fresh(behaviour) && fresh(animation)
    ensures player.name == "Player" && player.drawingLayer == Entities.Middle && !player.destroyed
    ensures player.components == [Entities.SpriteC(sprite), Entities.AnimatorC(animator), Entities.ShapeC(shape),
                                  Entities.BodyC(body), Entities.PlayerC(behaviour)]
    ensures player.transform == Entities.Transform(position, rotation)
    ensures sprite.gameObject == player && sprite.bitmap == GunSprite(sheet) && sprite.scale == 4.5
    ensures !sprite.flipX && sprite.flipY
    ensures animator.gameObject == player && animator.sprite == sprite && animator.animation == null
    ensures shape.gameObject == player && shape.geometry == Collision.Circle(PLAYER_RADIUS)
    ensures shape.layerMask == Physics.ENEMY && shape.isLayer == Physics.PLAYER
    ensures shape.onCollision == [Entities.SetGameOver(mode)]
    ensures body.gameObject == player && body.velocity == ZERO && body.angleVelocity == 0.0
    ensures body.useGravity && body.useDampening && body.mass == 1.0
    ensures behaviour.gameObject == player
    ensures behaviour.body == body && behaviour.sprite == sprite && behaviour.animator == animator
    ensures behaviour.maxAmmo == maxAmmo && behaviour.remainingAmmo == maxAmmo && behaviour.timer == 0.0
    ensures behaviour.shootForce == shootForce && behaviour.quickshotModifier == quickshotModifier
    ensures behaviour.reloadPenaltyTime == 0.6 && behaviour.shootAnimation == animation
    ensures animation.bitmap == sheet && animation.frameCount == 8 && animation.frameWidth == 64
    ensures animation.frameHeight == 48 && animation.rows == 1 && animation.columns == 8
    ensures animation.firstFrameY == 0 && animation.frameIndex == 0 && animation.timer == 0.0
    ensures PlayerParts(player, sprite, animator, shape, body, behaviour, animation, mode)
  {
    sprite, animator, shape, body, behaviour, animation :=
      MakeParts(mode, sheet, maxAmmo, shootForce, quickshotModifier);
    player := Assemble(sprite, animator, shape, body, behaviour, position, rotation);
  }

  /** The player's components, not yet attached. */
  method MakeParts(mode: Entities.GameMode, sheet: Animations.Bitmap, maxAmmo: int, shootForce: real,
                   quickshotModifier: real)
    returns (sprite: Entities.Sprite, animator: Entities.Animator, shape: Entities.CollisionShape,
             body: Entities.PhysicsBody, behaviour: Entities.PlayerBehaviour, animation: Animations.Animation)
    ensures fresh(sprite) && fresh(animator) && fresh(shape) && fresh(body) && fresh(behaviour) && fresh(animation)
    ensures sprite.gameObject == null && sprite.bitmap == GunSprite(sheet) && sprite.scale == 4.5
    ensures !sprite.flipX && sprite.flipY
    ensures animator.gameObject == null && animator.sprite == null && animator.animation == null
    ensures shape.gameObject == null && shape.geometry == Collision.Circle(PLAYER_RADIUS)
    ensures shape.layerMask == Physics.ENEMY && shape.isLayer == Physics.PLAYER
    ensures shape.onCollision == [Entities.SetGameOver(mode)]
    ensures body.gameObject == null && body.velocity == ZERO && body.angleVelocity == 0.0
    ensures body.useGravity && body.useDampening && body.mass == 1.0
    ensures behaviour.gameObject == null && behaviour.body == null && behaviour.sprite == null
    ensures behaviour.animator == null
    ensures behaviour.maxAmmo == maxAmmo && behaviour.remainingAmmo == maxAmmo && behaviour.timer == 0.0
    ensures behaviour.shootForce == shootForce && behaviour.quickshotModifier == quickshotModifier
    ensures behaviour.reloadPenaltyTime == 0.6 && behaviour.shootAnimation == animation
    ensures animation.bitmap == sheet && animation.frameCount == 8 && animation.frameWidth == 64
    ensures animation.frameHeight == 48 && animation.rows == 1 && animation.columns == 8
    ensures animation.firstFrameY == 0 && animation.frameIndex == 0 && animation.timer == 0.0
  {
    animation := new Animations.Animation(sheet, 8, 64, 48);
    sprite := new Entities.Sprite(GunSprite(sheet), 4.5, flipY := true);
    animator := new Entities.Animator();
    shape := PlayerShape(mode, sprite);
    body := new Entities.PhysicsBody();
    behaviour := new Entities.PlayerBehaviour(maxAmmo, shootForce, quickshotModifier, animation);
  }

  /** `GameObject.Builder("Player")` with the parts, in order, then the
      transform. */
  method Assemble(sprite: Entities.Sprite, animator: Entities.Animator, shape: Entities.CollisionShape,
                  body: Entities.PhysicsBody, behaviour: Entities.PlayerBehaviour, position: Vec2, rotation: real)
    returns (player: Entities.GameObject)
    modifies sprite`gameObject, animator`gameObject, animator`sprite, shape`gameObject, body`gameObject
    modifies behaviour`gameObject, behaviour`body, behaviour`sprite, behaviour`animator
    ensures fresh(player)
    ensures player.name == "Player" && player.drawingLayer == Entities.Middle && !player.destroyed
    ensures player.components == [Entities.SpriteC(sprite), Entities.AnimatorC(animator), Entities.ShapeC(shape),
                                  Entities.BodyC(body), Entities.PlayerC(behaviour)]
    ensures player.transform == Entities.Transform(position, rotation)
    ensures sprite.gameObject == player && animator.gameObject == player && animator.sprite == sprite
    ensures shape.gameObject == player && body.gameObject == player
    ensures behaviour.gameObject == player
    ensures behaviour.body == body && behaviour.sprite == sprite && behaviour.animator == animator
  {
    var builder := new Entities.Builder("Player");
    player := builder.gameObject;
    AttachAll(builder, sprite, animator, shape, body, behaviour);
    builder := builder.WithTransform(position, rotation);
  }

  /** The parts in their order. */
  method AttachAll(builder: Entities.Builder, sprite: Entities.Sprite, animator: Entities.Animator,
                   shape: Entities.CollisionShape, body: Entities.PhysicsBody, behaviour: Entities.PlayerBehaviour)
    requires builder.gameObject.components == []
    modifies builder.gameObject`components
    modifies sprite`gameObject, animator`gameObject, animator`sprite, shape`gameObject, body`gameObject
    modifies behaviour`gameObject, behaviour`body, behaviour`sprite, behaviour`animator
    ensures builder.gameObject.components ==
              [Entities.SpriteC(sprite), Entities.AnimatorC(animator), Entities.ShapeC(shape),
               Entities.BodyC(body), Entities.PlayerC(behaviour)]
    ensures builder.gameObject.destroyed == old(builder.gameObject.destroyed)
    ensures sprite.gameObject == builder.gameObject && animator.gameObject == builder.gameObject
    ensures animator.sprite == sprite && shape.gameObject == builder.gameObject
    ensures body.gameObject == builder.gameObject && behaviour.gameObject == builder.gameObject
    ensures behaviour.body == body && behaviour.sprite == sprite && behaviour.animator == animator
  {
    AttachLooks(builder, sprite, animator);
    ghost var looks := [Entities.SpriteC(sprite), Entities.AnimatorC(animator)];
    AttachPhysics(builder, shape, body, looks);
    assert looks + [Entities.ShapeC(shape), Entities.BodyC(body)] ==
           [Entities.SpriteC(sprite), Entities.AnimatorC(animator), Entities.ShapeC(shape), Entities.BodyC(body)];
    AttachBehaviour(builder, behaviour);
  }

  /** The links `BuildPlayer` sets up, as the world invariants need them:
      the component list, each part pointing back at the player, the
      behaviour's siblings, and the callback aimed at `mode`. */
  ghost predicate PlayerParts(player: Entities.GameObject, sprite: Entities.Sprite, animator: Entities.Animator,
                              shape: Entities.CollisionShape, body: Entities.PhysicsBody,
                              behaviour: Entities.PlayerBehaviour, animation: Animations.Animation,
                              mode: Entities.GameMode)
    reads player`components, animator`sprite, animator`animation, shape`gameObject, shape`onCollision
    reads body`gameObject, body`mass, behaviour`gameObject, behaviour`body, behaviour`sprite, behaviour`animator
    reads animation`frameIndex
  {
    player.components == [Entities.SpriteC(sprite), Entities.AnimatorC(animator), Entities.ShapeC(shape),
                          Entities.BodyC(body), Entities.PlayerC(behaviour)] &&
    animator.sprite == sprite && animator.animation == null &&
    shape.gameObject == player && shape.WellFormed() && shape.onCollision == [Entities.SetGameOver(mode)] &&
    body.gameObject == player && body.mass != 0.0 &&
    behaviour.gameObject == player && behaviour.body == body && behaviour.sprite == sprite &&
    behaviour.animator == animator && behaviour.shootAnimation == animation &&
    animation.Valid() && animation.OnSheet()
  }

  /** The sprite, then the animator, which finds the sprite. */
  method AttachLooks(builder: Entities.Builder, sprite: Entities.Sprite, animator: Entities.Animator)
    requires builder.gameObject.components == []
    modifies builder.gameObject`components, sprite`gameObject, animator`gameObject, animator`sprite
    ensures builder.gameObject.components == [Entities.SpriteC(sprite), Entities.AnimatorC(animator)]
    ensures sprite.gameObject == builder.gameObject && animator.gameObject == builder.gameObject
    ensures animator.sprite == sprite
    ensures builder.gameObject.destroyed == old(builder.gameObject.destroyed)
  {
    var b, ok := builder.WithComponent(Entities.SpriteC(sprite));
    b, ok := builder.WithComponent(Entities.AnimatorC(animator));
    assert ok;
  }

  /** The collision shape, then the body. */
  method AttachPhysics(builder: Entities.Builder, shape: Entities.CollisionShape, body: Entities.PhysicsBody,
                       ghost looks: seq<Entities.Component>)
    requires builder.gameObject.components == looks
    modifies builder.gameObject`components, shape`gameObject, body`gameObject
    ensures builder.gameObject.components == looks + [Entities.ShapeC(shape), Entities.BodyC(body)]
    ensures shape.gameObject == builder.gameObject && body.gameObject == builder.gameObject
    ensures builder.gameObject.destroyed == old(builder.gameObject.destroyed)
  {
    var b, ok := builder.WithComponent(Entities.ShapeC(shape));
    b, ok := builder.WithComponent(Entities.BodyC(body));
  }

  /** The behaviour last, so that it finds the body, the sprite and the
      animator attached before it. */
  method AttachBehaviour(builder: Entities.Builder, behaviour: Entities.PlayerBehaviour)
    requires |builder.gameObject.components| == 4 && builder.gameObject.components[0].SpriteC?
    requires builder.gameObject.components[1].AnimatorC? && builder.gameObject.components[2].ShapeC?
    requires builder.gameObject.components[3].BodyC?
    modifies builder.gameObject`components, behaviour`gameObject, behaviour`body, behaviour`sprite
    modifies behaviour`animator
    ensures builder.gameObject.components == old(builder.gameObject.components) + [Entities.PlayerC(behaviour)]
    ensures behaviour.gameObject == builder.gameObject && behaviour.Linked()
    ensures behaviour.sprite == builder.gameObject.components[0].sprite
    ensures behaviour.animator == builder.gameObject.components[1].animator
    ensures behaviour.body == builder.gameObject.components[3].body
    ensures builder.gameObject.destroyed == old(builder.gameObject.destroyed)
  {
    ghost var cs := builder.gameObject.components;
    assert cs[0].KindOf() == Entities.SpriteKind && cs[1].KindOf() == Entities.AnimatorKind;
    assert cs[3].KindOf() == Entities.BodyKind;
    var b, ok := builder.WithComponent(Entities.PlayerC(behaviour));
    assert builder.gameObject.components[..4] == cs;
    assert ok;
  }

  /** The player's collision circle, sized by the sprite, with the
      callback that ends the game. */
  method PlayerShape(mode: Entities.GameMode, sprite: Entities.Sprite) returns (shape: Entities.CollisionShape)
    ensures fresh(shape) && shape.gameObject == null
    ensures sprite.Size() == Vec2(288.0, 216.0) ==> shape.geometry == Collision.Circle(PLAYER_RADIUS)
    ensures shape.layerMask == Physics.ENEMY && shape.isLayer == Physics.PLAYER
    ensures shape.onCollision == [Entities.SetGameOver(mode)]
  {
    var size := sprite.Size();
    shape := new Entities.CollisionShape(Collision.Circle(Max(size.x, size.y) / 2.0 - 50.0),
                                         Physics.ENEMY, Physics.PLAYER);
    shape.AddCallback(Entities.SetGameOver(mode));
  }

  /** `onTouchEvent` of both modes, once the event's point is known: a
      press starts a paused game (before the start handlers run, so they
      already see it playing) and starts a touch; a move drags; a release
      ends the touch and lists the shots its handlers asked for; any other
      action is left unhandled and changes nothing. `ok` is false where the
      touch handler throws. */
  method Dispatch(mode: Entities.GameMode, action: Action, x: real, y: real, now: int, direction: real -> Vec2,
                  globals: Game.Globals, touch: Touch.TouchEventHandler, ghost w: Entities.World)
    returns (handled: bool, ok: bool, ghost shots: seq<Touch.Shot>)
    requires Entities.Wired(w) && Entities.Live(w)
    requires forall h :: h in touch.touchEndEvent && h.ShootOnRelease? ==> h.player in w.players
    modifies mode`gameState
    modifies touch`touchStartTime, touch`wasDrag, touch`isTouching, touch`startOfTouch, touch`lastKnownTouch
    modifies touch`durationOfTouch, globals`timeScale
    modifies (if action == Up then Touch.ShooterBodies(touch.touchEndEvent) else {})`velocity
    modifies (if action == Up then Touch.ShooterBodies(touch.touchEndEvent) else {})`angleVelocity
    modifies (if action == Up then Touch.ShooterSet(touch.touchEndEvent) else {})`remainingAmmo
    modifies w.animators`animation, w.animations`frameIndex, w.animations`timer
    ensures Entities.Wired(w) && Entities.Live(w)
    ensures handled <==> action != OtherAction
    ensures mode.gameState ==
              if action == Down && old(mode.gameState) == Entities.Paused then Entities.Playing else old(mode.gameState)
    ensures action == Down ==>
              ok && globals.timeScale == Touch.ScaleAfter(touch.touchStartEvent, old(globals.timeScale)) &&
              (Touch.RecordStart in touch.touchStartEvent ==>
                 touch.touchStartTime == now && !touch.wasDrag && touch.isTouching &&
                 touch.startOfTouch == Some(Vec2(x, y)) && touch.lastKnownTouch == touch.startOfTouch)
    ensures action == Move ==>
              (ok <==> touch.touchDragEvent == [] || old(touch.startOfTouch).Some?) &&
              touch.startOfTouch == old(touch.startOfTouch) &&
              (ok && touch.touchDragEvent != [] ==>
                 touch.startOfTouch.Some? &&
                 touch.wasDrag == (old(touch.wasDrag) || Touch.FarFromStart(Vec2(x, y), touch.startOfTouch.value)) &&
                 touch.lastKnownTouch == Some(Vec2(x, y))) &&
              globals.timeScale == old(globals.timeScale)
    ensures action == Up ==>
              ok &&
              shots == Touch.Shots(touch.touchEndEvent, old(touch.durationOfTouch), touch.wasDrag,
                                   Touch.Duration(now, touch.touchStartTime)) &&
              (Touch.RecordEnd in touch.touchEndEvent ==> !touch.isTouching) &&
              (Touch.HasShooter(touch.touchEndEvent) ==> globals.timeScale == 1.0)
    ensures action != Up ==> shots == []
    ensures action == Up && |Touch.Shooters(touch.touchEndEvent)| == 1 ==> Touch.Shooters(touch.touchEndEvent)[0] in w.players
    ensures action == Up && |Touch.Shooters(touch.touchEndEvent)| == 1 ==>
              var p := Touch.Shooters(touch.touchEndEvent)[0];
              Touch.LoneShot(p, shots, old(p.remainingAmmo), old(p.body.velocity), old(p.body.angleVelocity), direction)
    ensures action != Up ==>
              unchanged(Touch.ShooterBodies(touch.touchEndEvent)) && unchanged(Touch.ShooterSet(touch.touchEndEvent))
    ensures action == OtherAction ==> ok && unchanged(touch) && unchanged(globals)
    ensures old(touch.Valid()) ==> touch.Valid()
  {
    handled, ok, shots := true, true, [];
    match action {
      case Down =>
        Press(mode, x, y, now, globals, touch, w);
      case Move =>
        ok := touch.OnTouchDrag(x, y);
      case Up =>
        shots := touch.OnTouchEnd(x, y, now, direction, globals, w);
      case OtherAction =>
        handled := false;
    }
  }

  /** A press: a paused game starts, then the touch starts. */
  method Press(mode: Entities.GameMode, x: real, y: real, now: int, globals: Game.Globals,
               touch: Touch.TouchEventHandler, ghost w: Entities.World)
    requires Entities.Wired(w) && Entities.Live(w)
    modifies mode`gameState
    modifies touch`touchStartTime, touch`wasDrag, touch`isTouching, touch`startOfTouch, touch`lastKnownTouch
    modifies globals`timeScale
    ensures Entities.Wired(w) && Entities.Live(w)
    ensures mode.gameState == if old(mode.gameState) == Entities.Paused then Entities.Playing else old(mode.gameState)
    ensures globals.timeScale == Touch.ScaleAfter(touch.touchStartEvent, old(globals.timeScale))
    ensures Touch.RecordStart in touch.touchStartEvent ==>
              touch.touchStartTime == now && !touch.wasDrag && touch.isTouching &&
              touch.startOfTouch == Some(Vec2(x, y)) && touch.lastKnownTouch == touch.startOfTouch
    ensures old(touch.Valid()) ==> touch.Valid()
  {
    Resume(mode, w);
    StartTouch(x, y, now, globals, touch, w);
  }

  /** A paused game starts playing; a game playing or over stays as it is.
      The world's invariants do not read the game state. */
  method Resume(mode: Entities.GameMode, ghost w: Entities.World)
    requires Entities.Wired(w) && Entities.Live(w)
    modifies mode`gameState
    ensures Entities.Wired(w) && Entities.Live(w)
    ensures mode.gameState == if old(mode.gameState) == Entities.Paused then Entities.Playing else old(mode.gameState)
  {
    if mode.gameState == Entities.Paused {
      mode.gameState := Entities.Playing;
    }
  }

  /** The touch starts as `OnTouchStart` states; the world's invariants do
      not read the touch handler or the time scale. */
  method StartTouch(x: real, y: real, now: int, globals: Game.Globals, touch: Touch.TouchEventHandler,
                    ghost w: Entities.World)
    requires Entities.Wired(w) && Entities.Live(w)
    modifies touch`touchStartTime, touch`wasDrag, touch`isTouching, touch`startOfTouch, touch`lastKnownTouch
    modifies globals`timeScale
    ensures Entities.Wired(w) && Entities.Live(w)
    ensures globals.timeScale == Touch.ScaleAfter(touch.touchStartEvent, old(globals.timeScale))
    ensures Touch.RecordStart in touch.touchStartEvent ==>
              touch.touchStartTime == now && !touch.wasDrag && touch.isTouching &&
              touch.startOfTouch == Some(Vec2(x, y)) && touch.lastKnownTouch == touch.startOfTouch
    ensures old(touch.Valid()) ==> touch.Valid()
  {
    touch.OnTouchStart(x, y, now, globals);
  }

  /** With only the built-in start handler and one mode's slow motion
      registered, a press slows time to `scale` exactly when that mode is
      playing and its player has a round and no cooldown. */
  lemma OwnStartHandler(hs: seq<Touch.StartHandler>, mode: Entities.GameMode, player: Entities.PlayerBehaviour,
                        scale: real, timeScale: real)
    requires hs == [Touch.RecordStart, Touch.SlowMotion(mode, player, scale)]
    ensures Touch.ScaleAfter(hs, timeScale) ==
              if mode.gameState == Entities.Playing && player.remainingAmmo > 0 && !PlayerRules.Cooldown(player.timer)
              then scale else timeScale
  {
    var front := hs[..1];
    assert front == [Touch.RecordStart] && front[..0] == [];
    assert Touch.ScaleAfter(front, timeScale) == Touch.ScaleAfter(front[..0], timeScale) == timeScale;
  }

  /** With only the built-in release handler and one mode's shot
      registered, a release asks for one shot of that player, quick exactly
      when the finished touch was short and not a drag, and resets the time
      scale. */
  lemma OwnEndHandler(hs: seq<Touch.EndHandler>, player: Entities.PlayerBehaviour, durationOfTouch: real,
                      wasDrag: bool, ended: real)
    requires hs == [Touch.RecordEnd, Touch.ShootOnRelease(player)]
    ensures Touch.Shots(hs, durationOfTouch, wasDrag, ended) == [Touch.Shot(player, Touch.IsQuickShot(ended, wasDrag))]
    ensures Touch.HasShooter(hs) && Touch.Shooters(hs) == [player]
  {
    var rest := hs[1..];
    assert rest == [Touch.ShootOnRelease(player)] && rest[1..] == [];
    assert Touch.Shots(rest, ended, wasDrag, ended) == [Touch.Shot(player, Touch.IsQuickShot(ended, wasDrag))];
    assert Touch.Shooters(rest) == [player];
  }

  function Max(a: real, b: real): (r: real)
    ensures r >= a && r >= b && (r == a || r == b)
  {
    if a >= b then a else b
  }
}
