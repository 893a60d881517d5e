/** `FlappyMode`: the side-scrolling mode. The player flies through pipes
    that scroll in from the right over a scrolling background; touching a
    pipe or falling below the screen ends the game, and the player then
    tumbles down the screen. */
module Flappy {
  import opened Vectors
  import opened Wrappers
  import Game
  import PlayerRules
  import Animations
  import Entities
  import Touch
  import Scene
  import Modes

  /** `n / 2` on Kotlin `Int`s, which rounds toward zero. */
  function Half(n: int): (r: int)
    ensures n >= 0 ==> 0 <= r && 2 * r <= n <= 2 * r + 1
    ensures n < 0 ==> r <= 0 && 2 * r - 1 <= n <= 2 * r
  {
    if n >= 0 then n / 2 else -((-n) / 2)
  }

  /** One frame of the tumble after the game is over: the player spins by
      20 radians per second and drops by a screen height per second. */
  function Fall(t: Entities.Transform, screenHeight: int, deltaTime: real): (r: Entities.Transform)
    ensures r.position.x == t.position.x
    ensures screenHeight >= 0 && deltaTime >= 0.0 ==> r.position.y >= t.position.y && r.rotation >= t.rotation
    ensures screenHeight > 0 && deltaTime > 0.0 ==> r.position.y > t.position.y && r.rotation > t.rotation
  {
    Entities.Transform(t.position.Plus(DOWN.Times(screenHeight as real).Times(deltaTime)),
                       t.rotation + 20.0 * deltaTime)
  }

  /** Two frames of the tumble move the player as one frame as long as
      both: the fall does not depend on how the time is cut into frames. */
  lemma FallComposes(t: Entities.Transform, screenHeight: int, d1: real, d2: real)
    ensures Fall(Fall(t, screenHeight, d1), screenHeight, d2) == Fall(t, screenHeight, d1 + d2)
  {
    var h := screenHeight as real;
    assert h * d1 + h * d2 == h * (d1 + d2);
  }

  class FlappyMode {
    /** The state every game mode shares (the `GameMode` part). */
    const mode: Entities.GameMode
    const player: Entities.GameObject
    const playerBehaviour: Entities.PlayerBehaviour
    const pipeSpawner: Entities.PipeSpawner
    /** The objects `init` creates, by class; each frame passes on the
        world it grows to. */
    ghost const initialWorld: Entities.World

    /** The world invariants hold of `world`, the objects the mode can
        reach, and the mode, the player and the pipe spawner belong to it. */
    ghost predicate Valid(world: Entities.World)
      reads world.objects`components, world.animators`sprite, world.shapes`gameObject, world.shapes`onCollision
      reads world.bodies`gameObject, world.bodies`mass, world.players`gameObject, world.players`body
      reads world.players`sprite, world.players`animator, world.lavas`gameObject
      reads world.animators`animation, world.animations`frameIndex, world.spawners`pipes, world.modes`gameObjects
    {
      Entities.Sound(world) && mode in world.modes && player in world.objects &&
      playerBehaviour in world.players && pipeSpawner in world.spawners
    }

    /** `init`: the display size goes to the globals; the player (99999
        rounds, shot force 1200, no quick-shot bonus) starts 300 pixels from
        the left edge, half-way down the screen; the spawner sends pipes at
        275 pixels per second with 600 pixels between pairs and 4 units
        between the top and bottom pipe; the background scrolls at 150
        pixels per second (`Initial`); the mode's slow motion (0.6) and its
        shot join the touch handler's lists. */
    constructor (globals: Game.Globals, touch: Touch.TouchEventHandler, widthPixels: int, heightPixels: int,
                 playerSpriteSheet: Animations.Bitmap, pipeSprite: Animations.Bitmap,
                 backgroundBitmap: Animations.Bitmap)
      requires pipeSprite.Width() >= 0 && pipeSprite.Height() >= 0 && backgroundBitmap.Height() != 0
      modifies globals`screenWidth, globals`screenHeight, touch`touchStartEvent, touch`touchEndEvent
      ensures Valid(initialWorld)
      ensures fresh(mode) && fresh(player) && fresh(playerBehaviour) && fresh(pipeSpawner)
      ensures globals.screenWidth == widthPixels && globals.screenHeight == heightPixels
      ensures Initial(mode, player, playerBehaviour, pipeSpawner, heightPixels, pipeSprite)
      ensures touch.touchStartEvent == old(touch.touchStartEvent) + [Touch.SlowMotion(mode, playerBehaviour, 0.6)]
      ensures touch.touchEndEvent == old(touch.touchEndEvent) + [Touch.ShootOnRelease(playerBehaviour)]
    {
      var m, p, behaviour, spawner, w :=
        BuildScene(globals, touch, widthPixels, heightPixels, playerSpriteSheet, pipeSprite, backgroundBitmap);
      mode, player, playerBehaviour, pipeSpawner, initialWorld := m, p, behaviour, spawner, w;
    }

    /** `update(deltaTime)`, with `now` the clock the frame ends at. While
        playing, the objects present at the start update, the pair pass
        runs, destroyed objects go, the game is over if the pass hit the
        player or the player fell below the screen, and a held touch is
        timed; after the game is over, the player tumbles; while paused,
        nothing happens. The frame time is then recorded. `ok` is false
        where timing the held touch throws, and then the frame time is not
        recorded; `w2` is the world grown by the frame's pipes, `passed` the
        objects of the pass and `cs` their shapes. */
    method Update(deltaTime: real, now: int, globals: Game.Globals, rnd: real, touch: Touch.TouchEventHandler,
                  ghost w: Entities.World)
      returns (ok: bool, ghost w2: Entities.World, ghost passed: seq<Entities.GameObject>,
               ghost cs: seq<Option<Scene.Collider>>)
      requires Valid(w) && 0.0 <= rnd < 1.0
      modifies mode`prevFrameTime, touch`durationOfTouch
      modifies w.objects`transform, w.objects`destroyed, w.sprites`bitmap, w.sprites`flipY
      modifies w.animations`frameIndex, w.animations`timer, w.bodies`velocity, w.bodies`angleVelocity
      modifies w.players`timer, w.lavas`xOffset, w.spawners`pipes, w.spawners`totalMoved
      modifies w.backgrounds`backgroundX, w.modes`gameObjects, w.modes`score, w.modes`gameState
      ensures Valid(w2)
      ensures w.GrowsTo(w2)
      ensures ok <==> old(mode.gameState) != Entities.Playing || !touch.isTouching || touch.touchHoldEvent == [] ||
                      touch.lastKnownTouch.Some?
      ensures mode.prevFrameTime == if ok then now else old(mode.prevFrameTime)
      ensures old(mode.gameState) == Entities.Paused ==>
                w2 == w && touch.durationOfTouch == old(touch.durationOfTouch) &&
                unchanged(w.objects, w.sprites, w.animations, w.bodies, w.players, w.lavas) &&
                unchanged(w.spawners, w.backgrounds) && mode.gameObjects == old(mode.gameObjects) && mode.score == old(mode.score) && mode.gameState == old(mode.gameState)
      ensures old(mode.gameState) == Entities.GameOver ==>
                w2 == w && touch.durationOfTouch == old(touch.durationOfTouch) &&
                player.transform == Fall(old(player.transform), globals.screenHeight, deltaTime) &&
                player.destroyed == old(player.destroyed) &&
                unchanged(w.objects - {player}, w.sprites, w.animations, w.bodies, w.players, w.lavas) &&
                unchanged(w.spawners, w.backgrounds) && mode.gameObjects == old(mode.gameObjects) && mode.score == old(mode.score) && mode.gameState == old(mode.gameState)
      ensures old(mode.gameState) == Entities.Playing ==>
                old(mode.gameObjects) <= passed && mode.gameObjects == Entities.Survivors(passed) &&
                |cs| == |passed| && (forall k :: 0 <= k < |cs| ==> cs[k] == Scene.ColliderOf(passed[k])) &&
                (mode.gameState == Entities.GameOver <==>
                   mode in Scene.PassFired(cs, Scene.HitPairs(cs)) ||
                   player.transform.position.y > globals.screenHeight as real) &&
                (mode.gameState != Entities.GameOver ==> mode.gameState == Entities.Playing) &&
                (ok && touch.isTouching && touch.touchHoldEvent != [] ==>
                   touch.durationOfTouch == Touch.Duration(now, touch.touchStartTime))
    {
      ok, w2, passed, cs := true, w, [], [];
      match mode.gameState {
        case Playing =>
          ok, w2, passed, cs := PlayingFrame(deltaTime, now, globals, rnd, touch, w);
        case GameOver =>
          Tumble(deltaTime, globals.screenHeight, w);
          ok := Finish(now, touch, false, w);
        case Paused =>
          ok := Finish(now, touch, false, w);
      }
    }

    /** A frame while playing: the scene's step and the fall check, and
        the held touch and the frame time. */
    method PlayingFrame(deltaTime: real, now: int, globals: Game.Globals, rnd: real, touch: Touch.TouchEventHandler,
                        ghost w: Entities.World)
      returns (ok: bool, ghost w2: Entities.World, ghost passed: seq<Entities.GameObject>,
               ghost cs: seq<Option<Scene.Collider>>)
      requires Valid(w) && 0.0 <= rnd < 1.0 && mode.gameState == Entities.Playing
      modifies mode`prevFrameTime, touch`durationOfTouch
      modifies w.objects`transform, w.objects`destroyed, w.sprites`bitmap, w.sprites`flipY
      modifies w.animations`frameIndex, w.animations`timer, w.bodies`velocity, w.bodies`angleVelocity
      modifies w.players`timer, w.lavas`xOffset, w.spawners`pipes, w.spawners`totalMoved
      modifies w.backgrounds`backgroundX, w.modes`gameObjects, w.modes`score, w.modes`gameState
      ensures Valid(w2)
      ensures w.GrowsTo(w2)
      ensures ok <==> !touch.isTouching || touch.touchHoldEvent == [] || touch.lastKnownTouch.Some?
      ensures mode.prevFrameTime == if ok then now else old(mode.prevFrameTime)
      ensures old(mode.gameObjects) <= passed && mode.gameObjects == Entities.Survivors(passed)
      ensures |cs| == |passed| && forall k :: 0 <= k < |cs| ==> cs[k] == Scene.ColliderOf(passed[k])
      ensures mode.gameState == Entities.GameOver <==>
                mode in Scene.PassFired(cs, Scene.HitPairs(cs)) ||
                player.transform.position.y > globals.screenHeight as real
      ensures mode.gameState != Entities.GameOver ==> mode.gameState == Entities.Playing
      ensures ok && touch.isTouching && touch.touchHoldEvent != [] ==>
                touch.durationOfTouch == Touch.Duration(now, touch.touchStartTime)
    {
      // the held touch and the frame time share no state with the step,
      // so taking them first leaves the state the source's order leaves
      ok := Finish(now, touch, true, w);
      w2, passed, cs := Play(deltaTime, globals, rnd, touch, w);
      CheckFall(globals.screenHeight, touch, w2, passed, cs);
    }

    /** The frame after the game is over: only the player moves. */
    method Tumble(deltaTime: real, screenHeight: int, ghost w: Entities.World)
      requires Valid(w)
      modifies player`transform
      ensures Valid(w)
      ensures player.transform == Fall(old(player.transform), screenHeight, deltaTime)
    {
      player.transform := Fall(player.transform, screenHeight, deltaTime);
    }

    /** The end of every frame: while playing, a held touch is timed; then,
        unless timing it threw, the base `update` records the frame time. */
    method Finish(now: int, touch: Touch.TouchEventHandler, playing: bool, ghost w: Entities.World) returns (ok: bool)
      requires Valid(w)
      modifies mode`prevFrameTime, touch`durationOfTouch
      ensures Valid(w)
      ensures ok <==> !playing || !touch.isTouching || touch.touchHoldEvent == [] || touch.lastKnownTouch.Some?
      ensures mode.prevFrameTime == if ok then now else old(mode.prevFrameTime)
      ensures !playing || !touch.isTouching ==> touch.durationOfTouch == old(touch.durationOfTouch)
      ensures ok && playing && touch.isTouching && touch.touchHoldEvent != [] ==>
                touch.durationOfTouch == Touch.Duration(now, touch.touchStartTime)
    {
      ok := true;
      if playing && touch.isTouching {
        ok := touch.OnTouchHold(now);
      }
      if ok {
        mode.prevFrameTime := now;
      }
    }

    /** The scene's step of a playing frame; the touch handler and the
        frame time are left alone. */
    method Play(deltaTime: real, globals: Game.Globals, rnd: real, touch: Touch.TouchEventHandler,
                ghost w: Entities.World)
      returns (ghost w2: Entities.World, ghost passed: seq<Entities.GameObject>,
               ghost cs: seq<Option<Scene.Collider>>)
      requires Entities.Sound(w) && mode in w.modes && 0.0 <= rnd < 1.0 && mode.gameState == Entities.Playing
      modifies w.objects`transform, w.objects`destroyed, w.sprites`bitmap, w.sprites`flipY
      modifies w.animations`frameIndex, w.animations`timer, w.bodies`velocity, w.bodies`angleVelocity
      modifies w.players`timer, w.lavas`xOffset, w.spawners`pipes, w.spawners`totalMoved
      modifies w.backgrounds`backgroundX, w.modes`gameObjects, w.modes`score, w.modes`gameState
      ensures Entities.Sound(w2) && w.GrowsTo(w2)
      ensures old(mode.gameObjects) <= passed && mode.gameObjects == Entities.Survivors(passed)
      ensures |cs| == |passed| && forall k :: 0 <= k < |cs| ==> cs[k] == Scene.ColliderOf(passed[k])
      ensures mode.gameState == if mode in Scene.PassFired(cs, Scene.HitPairs(cs)) then Entities.GameOver else Entities.Playing
      ensures unchanged(touch) && mode.prevFrameTime == old(mode.prevFrameTime)
    {
      w2, passed, cs := Scene.PlayingStep(mode, deltaTime, globals, rnd, w);
    }

    /** The game is over when the player fell below the screen; the
        pass's objects and shapes stay as they are. */
    method CheckFall(screenHeight: int, touch: Touch.TouchEventHandler, ghost w: Entities.World,
                     ghost passed: seq<Entities.GameObject>, ghost cs: seq<Option<Scene.Collider>>)
      requires Valid(w)
      requires mode.gameObjects == Entities.Survivors(passed)
      requires |cs| == |passed| && forall k :: 0 <= k < |cs| ==> cs[k] == Scene.ColliderOf(passed[k])
      modifies mode`gameState
      ensures Valid(w)
      ensures mode.gameObjects == Entities.Survivors(passed)
      ensures |cs| == |passed| && forall k :: 0 <= k < |cs| ==> cs[k] == Scene.ColliderOf(passed[k])
      ensures mode.gameState ==
                if player.transform.position.y > screenHeight as real then Entities.GameOver else old(mode.gameState)
      ensures unchanged(touch) && mode.prevFrameTime == old(mode.prevFrameTime)
    {
      if player.transform.position.y > screenHeight as real {
        mode.gameState := Entities.GameOver;
      }
    }

    /** `onTouchEvent(event)` at screen point (x, y). */
    method OnTouchEvent(action: Modes.Action, x: real, y: real, now: int, direction: real -> Vec2,
                        globals: Game.Globals, touch: Touch.TouchEventHandler, ghost w: Entities.World)
      returns (handled: bool, ok: bool, ghost shots: seq<Touch.Shot>)
      requires Valid(w)
      requires forall h :: h in touch.touchEndEvent && h.ShootOnRelease? ==> h.player in w.players
      modifies mode`gameState
      modifies touch`touchStartTime, touch`wasDrag, touch`isTouching, touch`startOfTouch, touch`lastKnownTouch
      modifies touch`durationOfTouch, globals`timeScale
      modifies Touch.ShooterBodies(touch.touchEndEvent)`velocity, Touch.ShooterBodies(touch.touchEndEvent)`angleVelocity
      modifies Touch.ShooterSet(touch.touchEndEvent)`remainingAmmo
      modifies w.animators`animation, w.animations`frameIndex, w.animations`timer
      ensures Valid(w)
      ensures handled <==> action != Modes.OtherAction
      ensures mode.gameState ==
                if action == Modes.Down && old(mode.gameState) == Entities.Paused then Entities.Playing
                else old(mode.gameState)
      ensures action == Modes.Down ==>
                ok && globals.timeScale == Touch.ScaleAfter(touch.touchStartEvent, old(globals.timeScale))
      ensures action == Modes.Down && touch.touchStartEvent == [Touch.RecordStart, Touch.SlowMotion(mode, playerBehaviour, 0.6)] ==>
                globals.timeScale ==
                  if mode.gameState == Entities.Playing && playerBehaviour.remainingAmmo > 0 &&
                     !PlayerRules.Cooldown(playerBehaviour.timer)
                  then 0.6 else old(globals.timeScale)
      ensures action == Modes.Up && touch.touchEndEvent == [Touch.RecordEnd, Touch.ShootOnRelease(playerBehaviour)] ==>
                ok && globals.timeScale == 1.0 && !touch.isTouching &&
                shots == [Touch.Shot(playerBehaviour, Touch.IsQuickShot(Touch.Duration(now, touch.touchStartTime),
                                                                        touch.wasDrag))] &&
                Touch.LoneShot(playerBehaviour, shots, old(playerBehaviour.remainingAmmo),
                               old(playerBehaviour.body.velocity), old(playerBehaviour.body.angleVelocity), direction)
      ensures action != Modes.Up ==>
                shots == [] && playerBehaviour.remainingAmmo == old(playerBehaviour.remainingAmmo) &&
                playerBehaviour.body.velocity == old(playerBehaviour.body.velocity) &&
                playerBehaviour.body.angleVelocity == old(playerBehaviour.body.angleVelocity)
    {
      handled, ok, shots := Modes.Dispatch(mode, action, x, y, now, direction, globals, touch, w);
      if action == Modes.Down && touch.touchStartEvent == [Touch.RecordStart, Touch.SlowMotion(mode, playerBehaviour, 0.6)] {
        Modes.OwnStartHandler(touch.touchStartEvent, mode, playerBehaviour, 0.6, old(globals.timeScale));
      }
      if action == Modes.Up && touch.touchEndEvent == [Touch.RecordEnd, Touch.ShootOnRelease(playerBehaviour)] {
        Modes.OwnEndHandler(touch.touchEndEvent, playerBehaviour, old(touch.durationOfTouch), touch.wasDrag,
                            Touch.Duration(now, touch.touchStartTime));
      }
    }
  }

  /** The pipe spawner's object: 600 pixels between pairs, 275 pixels per
      second, 4 units between the top and the bottom pipe. */
  method BuildSpawner(mode: Entities.GameMode, pipeSprite: Animations.Bitmap)
    returns (o: Entities.GameObject, spawner: Entities.PipeSpawner)
    ensures fresh(o) && fresh(spawner)
    ensures o.name == "Pipe-spawner" && o.drawingLayer == Entities.Middle && !o.destroyed
    ensures o.components == [Entities.SpawnerC(spawner)] && o.transform == Entities.Transform(ZERO, 0.0)
    ensures spawner.gameObject == o && spawner.flappyMode == mode && spawner.spawnDistance == 600.0
    ensures spawner.pipeSpeed == 275.0 && spawner.pipeSprite == pipeSprite
    ensures spawner.spaceTopBottom == Game.ToPixels(4.0) && spawner.pipes == [] && spawner.totalMoved == 600.0
  {
    spawner := new Entities.PipeSpawner(mode, 600.0, 275.0, pipeSprite, Game.ToPixels(4.0));
    var builder := new Entities.Builder("Pipe-spawner");
    var b, _ := builder.WithComponent(Entities.SpawnerC(spawner));
    o := builder.Build();
  }

  /** The background's object, on the background layer, scrolling at 150
      pixels per second. */
  method BuildBackground(bitmap: Animations.Bitmap, globals: Game.Globals)
    returns (o: Entities.GameObject, background: Entities.SeamlessBackground)
    requires bitmap.Height() != 0
    ensures fresh(o) && fresh(background)
    ensures o.name == "Seamless background" && o.drawingLayer == Entities.Background && !o.destroyed
    ensures o.components == [Entities.BackgroundC(background)] && o.transform == Entities.Transform(ZERO, 0.0)
    ensures background.gameObject == o && background.backgroundSpeed == 150.0 && background.backgroundX == 0.0
  {
    background := new Entities.SeamlessBackground(bitmap, 150.0, globals);
    var builder := new Entities.Builder("Seamless background", Entities.Background);
    var b, _ := builder.WithComponent(Entities.BackgroundC(background));
    o := builder.Build();
  }

  /** The state `init` leaves: the game paused with no score and no
      frame yet; the scene is the player, the pipe spawner and the
      background, in that order; the player (99999 rounds, shot force 1200,
      no quick-shot bonus) is 300 pixels from the left edge, half-way down
      the screen, turned by 0.7 pi; the spawner sends pipes at 275 pixels
      per second, 600 pixels apart, with 4 units between the top and the
      bottom pipe. */
  ghost predicate Initial(m: Entities.GameMode, p: Entities.GameObject, behaviour: Entities.PlayerBehaviour,
                          spawner: Entities.PipeSpawner, heightPixels: int, pipeSprite: Animations.Bitmap)
    reads m`running, m`score, m`prevFrameTime, m`gameState, m`gameObjects, (set o | o in m.gameObjects)`components
    reads p`transform, behaviour`maxAmmo, behaviour`remainingAmmo, spawner`gameObject
  {
    !m.running && m.score == 0 && m.prevFrameTime == -1 && m.gameState == Entities.Paused &&
    |m.gameObjects| == 3 && m.gameObjects[0] == p && m.gameObjects[1] == spawner.gameObject &&
    m.gameObjects[2].drawingLayer == Entities.Background &&
    |m.gameObjects[2].components| == 1 && m.gameObjects[2].components[0].BackgroundC? &&
    p.transform == Entities.Transform(Vec2(300.0, Half(heightPixels) as real), PlayerRules.PI - PlayerRules.PI * 0.3) &&
    behaviour.maxAmmo == 99999 && behaviour.remainingAmmo == 99999 &&
    behaviour.shootForce == 1200.0 && behaviour.quickshotModifier == 1.0 &&
    spawner.flappyMode == m && spawner.spawnDistance == 600.0 && spawner.pipeSpeed == 275.0 &&
    spawner.pipeSprite == pipeSprite && spawner.spaceTopBottom == Game.ToPixels(4.0)
  }

  /** The world invariants hold of `w`, which holds the mode, the player
      and the spawner, and the scene is as `init` leaves it. */
  ghost predicate Built(w: Entities.World, m: Entities.GameMode, p: Entities.GameObject,
                        behaviour: Entities.PlayerBehaviour, spawner: Entities.PipeSpawner, heightPixels: int,
                        pipeSprite: Animations.Bitmap)
    reads w.objects`components, w.animators`sprite, w.shapes`gameObject, w.shapes`onCollision
    reads w.bodies`gameObject, w.bodies`mass, w.players`gameObject, w.players`body
    reads w.players`sprite, w.players`animator, w.lavas`gameObject
    reads w.animators`animation, w.animations`frameIndex, w.spawners`pipes, w.modes`gameObjects
    reads m`running, m`score, m`prevFrameTime, m`gameState, m`gameObjects, (set o | o in m.gameObjects)`components
    reads p`transform, behaviour`maxAmmo, behaviour`remainingAmmo, behaviour`gameObject, spawner`gameObject
  {
    Entities.Wired(w) && Entities.Live(w) && m in w.modes && p in w.objects && behaviour in w.players &&
    behaviour.gameObject == p && spawner in w.spawners && Initial(m, p, behaviour, spawner, heightPixels, pipeSprite)
  }

  /** The scene `init` builds, with the mode's handlers added to the touch
      handler's lists. */
  method BuildScene(globals: Game.Globals, touch: Touch.TouchEventHandler, widthPixels: int, heightPixels: int,
                    playerSpriteSheet: Animations.Bitmap, pipeSprite: Animations.Bitmap,
                    backgroundBitmap: Animations.Bitmap)
    returns (m: Entities.GameMode, p: Entities.GameObject, behaviour: Entities.PlayerBehaviour,
             spawner: Entities.PipeSpawner, ghost w: Entities.World)
    requires pipeSprite.Width() >= 0 && pipeSprite.Height() >= 0 && backgroundBitmap.Height() != 0
    modifies globals`screenWidth, globals`screenHeight, touch`touchStartEvent, touch`touchEndEvent
    ensures fresh(m) && fresh(p) && fresh(behaviour) && fresh(spawner)
    ensures touch.touchStartEvent == old(touch.touchStartEvent) + [Touch.SlowMotion(m, behaviour, 0.6)]
    ensures touch.touchEndEvent == old(touch.touchEndEvent) + [Touch.ShootOnRelease(behaviour)]
    ensures Built(w, m, p, behaviour, spawner, heightPixels, pipeSprite)
    ensures globals.screenWidth == widthPixels && globals.screenHeight == heightPixels
  {
    var sprite, animator, shape, body, animation, spawnerObject, backgroundObject, background;
    m, p, sprite, animator, shape, body, behaviour, animation, spawnerObject, spawner, backgroundObject, background :=
      BuildParts(globals, widthPixels, heightPixels, playerSpriteSheet, pipeSprite, backgroundBitmap);
    touch.AddStartHandler(Touch.SlowMotion(m, behaviour, 0.6));
    touch.AddEndHandler(Touch.ShootOnRelease(behaviour));
    w := Entities.World({p, spawnerObject, backgroundObject}, {sprite}, {animator}, {animation}, {shape},
                        {body}, {behaviour}, {}, {spawner}, {background}, {m});
    SceneBuilt(w, m, p, sprite, animator, shape, body, behaviour, animation, spawnerObject, spawner,
               backgroundObject, background, heightPixels, pipeSprite);
  }

  /** The objects `init` creates, each with its components. */
  method BuildParts(globals: Game.Globals, widthPixels: int, heightPixels: int,
                    playerSpriteSheet: Animations.Bitmap, pipeSprite: Animations.Bitmap,
                    backgroundBitmap: Animations.Bitmap)
    returns (m: Entities.GameMode, p: Entities.GameObject, sprite: Entities.Sprite, animator: Entities.Animator,
             shape: Entities.CollisionShape, body: Entities.PhysicsBody, behaviour: Entities.PlayerBehaviour,
             animation: Animations.Animation, spawnerObject: Entities.GameObject, spawner: Entities.PipeSpawner,
             backgroundObject: Entities.GameObject, background: Entities.SeamlessBackground)
    requires backgroundBitmap.Height() != 0
    modifies globals`screenWidth, globals`screenHeight
    ensures fresh(m) && fresh(p) && fresh(behaviour) && fresh(spawner)
    ensures Parts(m, p, sprite, animator, shape, body, behaviour, animation, spawnerObject, spawner,
                  backgroundObject, background, heightPixels, pipeSprite)
    ensures globals.screenWidth == widthPixels && globals.screenHeight == heightPixels
  {
    m := new Entities.GameMode(globals, widthPixels, heightPixels);
    p, sprite, animator, shape, body, behaviour, animation := FlappyPlayer(m, playerSpriteSheet, heightPixels);
    spawnerObject, spawner, backgroundObject, background := BuildScenery(m, pipeSprite, backgroundBitmap, globals);
    m.gameObjects := [p, spawnerObject, backgroundObject];
  }

  /** The pipe spawner's object and the background's object. */
  method BuildScenery(m: Entities.GameMode, pipeSprite: Animations.Bitmap, backgroundBitmap: Animations.Bitmap,
                      globals: Game.Globals)
    returns (spawnerObject: Entities.GameObject, spawner: Entities.PipeSpawner,
             backgroundObject: Entities.GameObject, background: Entities.SeamlessBackground)
    requires backgroundBitmap.Height() != 0
    ensures fresh(spawnerObject) && fresh(spawner) && fresh(backgroundObject) && fresh(background)
    ensures spawnerObject != backgroundObject
    ensures spawnerObject.components == [Entities.SpawnerC(spawner)] && spawner.gameObject == spawnerObject
    ensures spawner.pipes == [] && spawner.flappyMode == m && spawner.spawnDistance == 600.0
    ensures spawner.pipeSpeed == 275.0 && spawner.pipeSprite == pipeSprite && spawner.spaceTopBottom == Game.ToPixels(4.0)
    ensures backgroundObject.components == [Entities.BackgroundC(background)]
    ensures backgroundObject.drawingLayer == Entities.Background
  {
    spawnerObject, spawner := BuildSpawner(m, pipeSprite);
    backgroundObject, background := BuildBackground(backgroundBitmap, globals);
  }

  /** The objects `init` creates are distinct and wired to each other, and
      hold the values `init` gives them. */
  ghost predicate Parts(m: Entities.GameMode, p: Entities.GameObject, sprite: Entities.Sprite,
                        animator: Entities.Animator, shape: Entities.CollisionShape, body: Entities.PhysicsBody,
                        behaviour: Entities.PlayerBehaviour, animation: Animations.Animation,
                        spawnerObject: Entities.GameObject, spawner: Entities.PipeSpawner,
                        backgroundObject: Entities.GameObject, background: Entities.SeamlessBackground,
                        heightPixels: int, pipeSprite: Animations.Bitmap)
    reads p`components, animator`sprite, animator`animation, shape`gameObject, shape`onCollision
    reads body`gameObject, body`mass, behaviour`gameObject, behaviour`body, behaviour`sprite, behaviour`animator
    reads animation`frameIndex, spawnerObject`components, backgroundObject`components, spawner`gameObject
    reads spawner`pipes, m`running, m`score, m`prevFrameTime, m`gameState, m`gameObjects, p`transform
    reads behaviour`maxAmmo, behaviour`remainingAmmo
  {
    FlappyPlayerParts(p, sprite, animator, shape, body, behaviour, animation, m, heightPixels) &&
    p != spawnerObject && p != backgroundObject && spawnerObject != backgroundObject &&
    spawnerObject.components == [Entities.SpawnerC(spawner)] && spawner.gameObject == spawnerObject &&
    spawner.pipes == [] && spawner.flappyMode == m && spawner.spawnDistance == 600.0 && spawner.pipeSpeed == 275.0 &&
    spawner.pipeSprite == pipeSprite && spawner.spaceTopBottom == Game.ToPixels(4.0) &&
    backgroundObject.components == [Entities.BackgroundC(background)] &&
    backgroundObject.drawingLayer == Entities.Background &&
    !m.running && m.score == 0 && m.prevFrameTime == -1 && m.gameState == Entities.Paused &&
    m.gameObjects == [p, spawnerObject, backgroundObject]
  }

  /** The player's parts, wired to each other, and the values this mode
      gives the player. */
  ghost predicate FlappyPlayerParts(p: Entities.GameObject, sprite: Entities.Sprite, animator: Entities.Animator,
                                    shape: Entities.CollisionShape, body: Entities.PhysicsBody,
                                    behaviour: Entities.PlayerBehaviour, animation: Animations.Animation,
                                    m: Entities.GameMode, heightPixels: int)
    reads p`components, animator`sprite, animator`animation, shape`gameObject, shape`onCollision
    reads body`gameObject, body`mass, behaviour`gameObject, behaviour`body, behaviour`sprite, behaviour`animator
    reads animation`frameIndex, p`transform, behaviour`maxAmmo, behaviour`remainingAmmo
  {
    Modes.PlayerParts(p, sprite, animator, shape, body, behaviour, animation, m) &&
    p.transform == Entities.Transform(Vec2(300.0, Half(heightPixels) as real), PlayerRules.PI - PlayerRules.PI * 0.3) &&
    behaviour.maxAmmo == 99999 && behaviour.remainingAmmo == 99999 &&
    behaviour.shootForce == 1200.0 && behaviour.quickshotModifier == 1.0
  }

  /** The world of the objects `init` creates keeps the world's
      invariants, and the scene is as `init` leaves it. */
  lemma SceneBuilt(w: Entities.World, m: Entities.GameMode, p: Entities.GameObject, sprite: Entities.Sprite,
                   animator: Entities.Animator, shape: Entities.CollisionShape, body: Entities.PhysicsBody,
                   behaviour: Entities.PlayerBehaviour, animation: Animations.Animation,
                   spawnerObject: Entities.GameObject, spawner: Entities.PipeSpawner,
                   backgroundObject: Entities.GameObject, background: Entities.SeamlessBackground,
                   heightPixels: int, pipeSprite: Animations.Bitmap)
    requires pipeSprite.Width() >= 0 && pipeSprite.Height() >= 0
    requires w == Entities.World({p, spawnerObject, backgroundObject}, {sprite}, {animator}, {animation}, {shape},
                                 {body}, {behaviour}, {}, {spawner}, {background}, {m})
    requires Parts(m, p, sprite, animator, shape, body, behaviour, animation, spawnerObject, spawner,
                   backgroundObject, background, heightPixels, pipeSprite)
    ensures Built(w, m, p, behaviour, spawner, heightPixels, pipeSprite)
  {
    SceneWired(w, p, sprite, animator, shape, body, behaviour, animation, spawnerObject, spawner,
               backgroundObject, background, m);
    SceneLive(w, p, animator, animation, spawnerObject, spawner, backgroundObject, m);
  }

  /** The player of this mode: 99999 rounds, shot force 1200, no
      quick-shot bonus, 300 pixels from the left edge, half-way down the
      screen, turned by 0.7 pi. */
  method FlappyPlayer(m: Entities.GameMode, sheet: Animations.Bitmap, heightPixels: int)
    returns (p: Entities.GameObject, sprite: Entities.Sprite, animator: Entities.Animator,
             shape: Entities.CollisionShape, body: Entities.PhysicsBody, behaviour: Entities.PlayerBehaviour,
             animation: Animations.Animation)
    ensures fresh(p) && fresh(sprite) && fresh(animator) && fresh(shape) && fresh(body) && fresh(behaviour)
    ensures fresh(animation)
    ensures FlappyPlayerParts(p, sprite, animator, shape, body, behaviour, animation, m, heightPixels)
  {
    p, sprite, animator, shape, body, behaviour, animation :=
      Modes.BuildPlayer(m, sheet, 99999, 1200.0, 1.0, Vec2(300.0, Half(heightPixels) as real),
                        PlayerRules.PI - PlayerRules.PI * 0.3);
  }

  /** The scene `init` builds satisfies the world's wiring invariant. */
  lemma SceneWired(w: Entities.World, player: Entities.GameObject, sprite: Entities.Sprite,
                   animator: Entities.Animator, shape: Entities.CollisionShape, body: Entities.PhysicsBody,
                   behaviour: Entities.PlayerBehaviour, animation: Animations.Animation,
                   spawnerObject: Entities.GameObject, spawner: Entities.PipeSpawner,
                   backgroundObject: Entities.GameObject, background: Entities.SeamlessBackground,
                   mode: Entities.GameMode)
    requires w == Entities.World({player, spawnerObject, backgroundObject}, {sprite}, {animator}, {animation}, {shape},
                                 {body}, {behaviour}, {}, {spawner}, {background}, {mode})
    requires Modes.PlayerParts(player, sprite, animator, shape, body, behaviour, animation, mode)
    requires spawnerObject.components == [Entities.SpawnerC(spawner)]
    requires backgroundObject.components == [Entities.BackgroundC(background)]
    requires spawner.flappyMode == mode && spawner.pipeSprite.Width() >= 0 && spawner.pipeSprite.Height() >= 0
    ensures Entities.Wired(w)
  {
    forall o, i | o in w.objects && 0 <= i < |o.components|
      ensures w.Holds(o.components[i])
      ensures o.components[i].ShapeC? ==> o.components[i].shape.gameObject == o
    {
      if o == player {
        assert o.components[i] in player.components;
      }
    }
    forall m | m in Entities.Targets(shape.onCollision)
      ensures m == mode
    {
    }
  }

  /** The scene `init` builds satisfies the invariant its updates keep:
      no animation is running yet, no pipe exists, and the mode's three
      objects are distinct members of the world. */
  lemma SceneLive(w: Entities.World, player: Entities.GameObject, animator: Entities.Animator,
                  animation: Animations.Animation, spawnerObject: Entities.GameObject,
                  spawner: Entities.PipeSpawner, backgroundObject: Entities.GameObject, mode: Entities.GameMode)
    requires w.objects == {player, spawnerObject, backgroundObject} && w.animators == {animator}
    requires w.animations == {animation} && w.spawners == {spawner} && w.modes == {mode}
    requires animator.animation == null && animation.Valid() && animation.OnSheet() && spawner.pipes == []
    requires player != spawnerObject && player != backgroundObject && spawnerObject != backgroundObject
    requires mode.gameObjects == [player, spawnerObject, backgroundObject]
    ensures Entities.Live(w)
  {
  }
}
