/** `EndlessMode`: the climbing mode. The player shoots itself upwards
    while lava rises from below; the view follows the player up, the
    height reached is the score, and the game is over once the player is
    below the lava's surface. */
module Endless {
  import opened Vectors
  import opened Wrappers
  import Game
  import PlayerRules
  import LavaRules
  import BackgroundRules
  import Animations
  import Entities
  import Touch
  import Scene
  import Modes

  /** The screen line the view keeps the player below: `screenHeight / 2.5`. */
  function CameraLine(screenHeight: int): (r: real)
    ensures screenHeight >= 0 ==> 0.0 <= r <= screenHeight as real
    ensures r * 2.5 == screenHeight as real
  {
    screenHeight as real / 2.5
  }

  /** The vertical offset of the view after a frame in which the player
      ended at `playerY`: when the player is shown above the camera line,
      the view moves up by exactly as much as it is above; otherwise it
      stays. The view never moves back down. */
  function Follow(worldY: real, playerY: real, screenHeight: int): (r: real)
    ensures r >= worldY
    ensures playerY + r >= CameraLine(screenHeight)
    ensures playerY + worldY < CameraLine(screenHeight) ==> playerY + r == CameraLine(screenHeight)
    ensures playerY + worldY >= CameraLine(screenHeight) ==> r == worldY
  {
    var display := playerY + worldY;
    if display < CameraLine(screenHeight) then worldY - (display - CameraLine(screenHeight)) else worldY
  }

  /** The view after a playing frame: it stays where it was when the
      player ended below the lava's surface (the game is then over), and
      otherwise follows the player up. */
  function NextView(worldPosition: Vec2, playerY: real, lavaY: real, screenHeight: int): (r: Vec2)
    ensures r.x == worldPosition.x && r.y >= worldPosition.y
    ensures playerY > lavaY ==> r == worldPosition
    ensures playerY <= lavaY ==> r.y == Follow(worldPosition.y, playerY, screenHeight)
  {
    if playerY > lavaY then worldPosition else worldPosition.(y := Follow(worldPosition.y, playerY, screenHeight))
  }

  /** Following twice for the same player position moves the view once. */
  lemma FollowSettles(worldY: real, playerY: real, screenHeight: int)
    ensures Follow(Follow(worldY, playerY, screenHeight), playerY, screenHeight) == Follow(worldY, playerY, screenHeight)
  {
  }

  /** The height shown for a player at `y` pixels: the negated, rounded
      position in units (up is negative on the screen). */
  function HeightUnits(y: real): (r: int)
    ensures -Game.ToUnits(y) - 0.5 <= r as real < -Game.ToUnits(y) + 0.5
  {
    -BackgroundRules.Round(Game.ToUnits(y))
  }

  /** A player higher up the screen shows at least the same height. */
  lemma HigherIsHigher(y1: real, y2: real)
    requires y1 <= y2
    ensures HeightUnits(y1) >= HeightUnits(y2)
  {
    Game.ConversionsMonotone(y1, y2);
  }

  /** `n.coerceAtLeast(minimum)`. */
  function CoerceAtLeast(n: int, minimum: int): (r: int)
    ensures r >= n && r >= minimum && (r == n || r == minimum)
  {
    if n < minimum then minimum else n
  }

  /** The best height after playing frames that ended with the player at
      the positions `ys`, starting from the best height `maxHeight`. */
  function HeightAfter(maxHeight: int, ys: seq<real>): int
    decreases |ys|
  {
    if ys == [] then maxHeight else HeightAfter(CoerceAtLeast(maxHeight, HeightUnits(ys[0])), ys[1..])
  }

  /** The best height is a record: never below where it started, at least
      every height shown, and either where it started or one of them. */
  lemma {:induction false} HeightAfterIsRecord(maxHeight: int, ys: seq<real>)
    ensures HeightAfter(maxHeight, ys) >= maxHeight
    ensures forall i :: 0 <= i < |ys| ==> HeightAfter(maxHeight, ys) >= HeightUnits(ys[i])
    ensures HeightAfter(maxHeight, ys) == maxHeight ||
            exists i :: 0 <= i < |ys| && HeightAfter(maxHeight, ys) == HeightUnits(ys[i])
    decreases |ys|
  {
    if ys != [] {
      var next := CoerceAtLeast(maxHeight, HeightUnits(ys[0]));
      HeightAfterIsRecord(next, ys[1..]);
      forall i | 0 <= i < |ys|
        ensures HeightAfter(maxHeight, ys) >= HeightUnits(ys[i])
      {
        if i > 0 {
          assert ys[i] == ys[1..][i - 1];
        }
      }
      if HeightAfter(maxHeight, ys) != maxHeight {
        if HeightAfter(maxHeight, ys) == next {
          assert HeightAfter(maxHeight, ys) == HeightUnits(ys[0]);
        } else {
          var j :| 0 <= j < |ys[1..]| && HeightAfter(next, ys[1..]) == HeightUnits(ys[1..][j]);
          assert HeightAfter(maxHeight, ys) == HeightUnits(ys[j + 1]);
        }
      }
    }
  }

  class EndlessMode {
    /** The state every game mode shares (the `GameMode` part). */
    const mode: Entities.GameMode
    const player: Entities.GameObject
    const playerBehaviour: Entities.PlayerBehaviour
    const lava: Entities.GameObject
    const lavaBehaviour: Entities.LavaBehaviour
    /** The offset the scene is drawn at; touches are shifted back by it. */
    var worldPosition: Vec2
    /** The best height reached. */
    var maxHeight: int
    /** Points on top of the height; nothing in the mode adds to it. */
    var gainedScore: int
    /** The objects `init` creates, by class; each frame passes on the
        world it grows to. */
    ghost const initialWorld: Entities.World

    /** The world invariants hold of `world`, the objects the mode can
        reach, and the mode, the player and the lava belong to it. */
    ghost predicate Valid(world: Entities.World)
      reads world.objects`components, world.animators`sprite, world.shapes`gameObject, world.shapes`onCollision
      reads world.bodies`gameObject, world.bodies`mass, world.players`gameObject, world.players`body
      reads world.players`sprite, world.players`animator, world.lavas`gameObject
      reads world.animators`animation, world.animations`frameIndex, world.spawners`pipes, world.modes`gameObjects
    {
      Entities.Sound(world) && mode in world.modes && player in world.objects &&
      playerBehaviour in world.players && lava in world.objects && lavaBehaviour in world.lavas
    }

    /** The lava's only component is its behaviour, which chases the player. */
    ghost predicate Linked()
      reads lava`components, lavaBehaviour`gameObject
    {
      lava.components == [Entities.LavaC(lavaBehaviour)] && lavaBehaviour.gameObject == lava &&
      lavaBehaviour.player == player
    }

    /** `init`: the display size goes to the globals; the player (30
        rounds, the default shot force, a quick-shot bonus of 2) starts at
        the top edge, half-way across; the lava, rising at least 225
        pixels per second, starts a fifth of the screen down (`Initial`);
        the view is offset half a screen down; the mode's slow motion (0.4)
        and its shot join the touch handler's lists. */
    constructor (globals: Game.Globals, touch: Touch.TouchEventHandler, widthPixels: int, heightPixels: int,
                 playerSpriteSheet: Animations.Bitmap)
      modifies globals`screenWidth, globals`screenHeight, touch`touchStartEvent, touch`touchEndEvent
      ensures Valid(initialWorld) && Linked()
      ensures fresh(mode) && fresh(player) && fresh(playerBehaviour) && fresh(lava) && fresh(lavaBehaviour)
      ensures globals.screenWidth == widthPixels && globals.screenHeight == heightPixels
      ensures Initial(mode, player, playerBehaviour, lava, lavaBehaviour, widthPixels, heightPixels)
      ensures worldPosition == Vec2(0.0, heightPixels as real / 2.0) && maxHeight == 0 && gainedScore == 0
      ensures touch.touchStartEvent == old(touch.touchStartEvent) + [Touch.SlowMotion(mode, playerBehaviour, 0.4)]
      ensures touch.touchEndEvent == old(touch.touchEndEvent) + [Touch.ShootOnRelease(playerBehaviour)]
    {
      var m, p, behaviour, l, lb, w :=
        BuildScene(globals, touch, widthPixels, heightPixels, playerSpriteSheet);
      mode, player, playerBehaviour, lava, lavaBehaviour, initialWorld := m, p, behaviour, l, lb, w;
      worldPosition := DOWN.Times(heightPixels as real).Div(2.0);
      maxHeight, gainedScore := 0, 0;
    }

    /** `update(deltaTime)`, with `now` the clock the frame ends at. While
        playing, the objects present at the start update, the pair pass
        runs, destroyed objects go, the game is over if the pass hit the
        player or the player is below the lava's surface, and otherwise the
        view follows the player up; a held touch is timed, and the best
        height and the score are brought up to date. After the game is
        over only the lava moves; while paused only its wave moves. The
        frame time is then recorded. `ok` is false where timing the held
        touch throws, and then neither the score nor the frame time is
        recorded; `w2` is the world after the frame, `passed` the objects
        of the pass and `cs` their shapes. */
    method Update(deltaTime: real, now: int, globals: Game.Globals, rnd: real, touch: Touch.TouchEventHandler,
                  ghost w: Entities.World)
      returns (ok: bool, ghost w2: Entities.World, ghost passed: seq<Entities.GameObject>,
               ghost cs: seq<Option<Scene.Collider>>)
      requires Valid(w) && Linked() && 0.0 <= rnd < 1.0
      modifies this`worldPosition, this`maxHeight, mode`prevFrameTime, touch`durationOfTouch
      modifies w.objects`transform, w.objects`destroyed, w.sprites`bitmap, w.sprites`flipY
      modifies w.animations`frameIndex, w.animations`timer, w.bodies`velocity, w.bodies`angleVelocity
      modifies w.players`timer, w.lavas`xOffset, w.spawners`pipes, w.spawners`totalMoved
      modifies w.backgrounds`backgroundX, w.modes`gameObjects, w.modes`score, w.modes`gameState
      ensures Valid(w2)
      ensures w.GrowsTo(w2)
      ensures ok <==> old(mode.gameState) != Entities.Playing || !touch.isTouching || touch.touchHoldEvent == [] ||
                      touch.lastKnownTouch.Some?
      ensures mode.prevFrameTime == if ok then now else old(mode.prevFrameTime)
      ensures maxHeight >= old(maxHeight)
      ensures old(mode.gameState) == Entities.Paused ==>
                w2 == w && touch.durationOfTouch == old(touch.durationOfTouch) &&
                lavaBehaviour.xOffset == LavaRules.AdvanceWave(old(lavaBehaviour.xOffset), lavaBehaviour.waveSpeed, deltaTime) &&
                unchanged(w.objects, w.sprites, w.animations, w.bodies, w.players, w.lavas - {lavaBehaviour}) &&
                unchanged(w.spawners, w.backgrounds) && mode.gameObjects == old(mode.gameObjects) &&
                mode.score == old(mode.score) && mode.gameState == old(mode.gameState) &&
                worldPosition == old(worldPosition) && maxHeight == old(maxHeight)
      ensures old(mode.gameState) == Entities.GameOver ==>
                w2 == w && touch.durationOfTouch == old(touch.durationOfTouch) &&
                lava.transform == old(lava.transform).(position := LavaRules.Rise(old(lava.transform.position),
                  LavaRules.Speed(old(lava.transform.position.y), old(player.transform.position.y),
                                  lavaBehaviour.lavaMinSpeed), deltaTime)) &&
                lavaBehaviour.xOffset == LavaRules.AdvanceWave(old(lavaBehaviour.xOffset), lavaBehaviour.waveSpeed, deltaTime) &&
                unchanged(w.objects - {lava}, w.sprites, w.animations, w.bodies, w.players, w.lavas - {lavaBehaviour}) &&
                lava.destroyed == old(lava.destroyed) &&
                unchanged(w.spawners, w.backgrounds) && mode.gameObjects == old(mode.gameObjects) &&
                mode.score == old(mode.score) && mode.gameState == old(mode.gameState) &&
                worldPosition == old(worldPosition) && maxHeight == old(maxHeight)
      ensures old(mode.gameState) == Entities.Playing ==>
                old(mode.gameObjects) <= passed && mode.gameObjects == Entities.Survivors(passed) &&
                |cs| == |passed| && (forall k :: 0 <= k < |cs| ==> cs[k] == Scene.ColliderOf(passed[k])) &&
                (mode.gameState == Entities.GameOver <==>
                   mode in Scene.PassFired(cs, Scene.HitPairs(cs)) ||
                   player.transform.position.y > lava.transform.position.y) &&
                (mode.gameState != Entities.GameOver ==> mode.gameState == Entities.Playing) &&
                worldPosition == NextView(old(worldPosition), player.transform.position.y,
                                          lava.transform.position.y, globals.screenHeight) &&
                (ok ==> maxHeight == CoerceAtLeast(old(maxHeight), HeightUnits(player.transform.position.y)) &&
                        mode.score == maxHeight + gainedScore) &&
                (!ok ==> maxHeight == old(maxHeight)) &&
                (ok && touch.isTouching && touch.touchHoldEvent != [] ==>
                   touch.durationOfTouch == Touch.Duration(now, touch.touchStartTime))
    {
      ok, w2, passed, cs := true, w, [], [];
      match mode.gameState {
        case Playing =>
          // the held touch and the frame time share no state with the step
          // and the lava check, so taking them first leaves the state the
          // source's order leaves
          ok := Finish(now, touch, true, w);
          w2, passed, cs := PlayingFrame(ok, deltaTime, globals, rnd, touch, w, worldPosition, maxHeight);
        case GameOver =>
          Sink(deltaTime, now, w);
        case Paused =>
          Idle(deltaTime, now, w);
      }
    }

    /** A frame while paused: only the lava's wave moves; the frame time
        is recorded. */
    method Idle(deltaTime: real, now: int, ghost w: Entities.World)
      requires Valid(w)
      modifies lavaBehaviour`xOffset, mode`prevFrameTime
      ensures Valid(w)
      ensures lavaBehaviour.xOffset == LavaRules.AdvanceWave(old(lavaBehaviour.xOffset), lavaBehaviour.waveSpeed, deltaTime)
      ensures mode.prevFrameTime == now
    {
      lavaBehaviour.UpdateOffset(deltaTime);
      mode.prevFrameTime := now;
    }

    /** A frame after the game is over: only the lava moves, rising after
        the player; the frame time is recorded. */
    method Sink(deltaTime: real, now: int, ghost w: Entities.World)
      requires Valid(w) && Linked()
      modifies lava`transform, lavaBehaviour`xOffset, mode`prevFrameTime
      ensures Valid(w)
      ensures lava.transform == old(lava.transform).(position := LavaRules.Rise(old(lava.transform.position),
                LavaRules.Speed(old(lava.transform.position.y), old(player.transform.position.y),
                                lavaBehaviour.lavaMinSpeed), deltaTime))
      ensures lavaBehaviour.xOffset == LavaRules.AdvanceWave(old(lavaBehaviour.xOffset), lavaBehaviour.waveSpeed, deltaTime)
      ensures mode.prevFrameTime == now
    {
      // the lava's only component is its behaviour, so the object's
      // `update` is the behaviour's
      lavaBehaviour.Update(deltaTime);
      mode.prevFrameTime := now;
    }

    /** A frame while playing, after the held touch: the scene's step,
        the lava check and the view, and, unless timing the held touch
        threw (`ok` false), the best height and the score. */
    method PlayingFrame(ok: bool, deltaTime: real, globals: Game.Globals, rnd: real, touch: Touch.TouchEventHandler,
                        ghost w: Entities.World, ghost view: Vec2, ghost best: int)
      returns (ghost w2: Entities.World, ghost passed: seq<Entities.GameObject>,
               ghost cs: seq<Option<Scene.Collider>>)
      requires Valid(w) && 0.0 <= rnd < 1.0 && mode.gameState == Entities.Playing
      requires worldPosition == view && maxHeight == best
      modifies this`worldPosition, this`maxHeight
      modifies w.objects`transform, w.objects`destroyed, w.sprites`bitmap, w.sprites`flipY
      modifies w.animations`frameIndex, w.animations`timer, w.bodies`velocity, w.bodies`angleVelocity
      modifies w.players`timer, w.lavas`xOffset, w.spawners`pipes, w.spawners`totalMoved
      modifies w.backgrounds`backgroundX, w.modes`gameObjects, w.modes`score, w.modes`gameState
      ensures Valid(w2)
      ensures w.GrowsTo(w2)
      ensures old(mode.gameObjects) <= passed && mode.gameObjects == Entities.Survivors(passed)
      ensures |cs| == |passed| && forall k :: 0 <= k < |cs| ==> cs[k] == Scene.ColliderOf(passed[k])
      ensures mode.gameState == Entities.GameOver <==>
                mode in Scene.PassFired(cs, Scene.HitPairs(cs)) ||
                player.transform.position.y > lava.transform.position.y
      ensures mode.gameState != Entities.GameOver ==> mode.gameState == Entities.Playing
      ensures worldPosition == NextView(view, player.transform.position.y,
                                        lava.transform.position.y, globals.screenHeight)
      ensures ok ==> maxHeight == CoerceAtLeast(best, HeightUnits(player.transform.position.y)) &&
                     mode.score == maxHeight + gainedScore
      ensures !ok ==> maxHeight == best
      ensures unchanged(touch) && mode.prevFrameTime == old(mode.prevFrameTime)
    {
      w2, passed, cs := Play(deltaTime, globals, rnd, touch, w);
      Settle(ok, globals, touch, w2, passed, cs, view, best);
    }

    /** The end of every frame: while playing, a held touch is timed; then,
        unless timing it threw, the base `update` records the frame time. */
    method Finish(now: int, touch: Touch.TouchEventHandler, playing: bool, ghost w: Entities.World) returns (ok: bool)
      requires Valid(w)
      modifies mode`prevFrameTime, touch`durationOfTouch
      ensures Valid(w)
      ensures ok <==> !playing || !touch.isTouching || touch.touchHoldEvent == [] || touch.lastKnownTouch.Some?
      ensures mode.prevFrameTime == if ok then now else old(mode.prevFrameTime)
      ensures !playing || !touch.isTouching ==> touch.durationOfTouch == old(touch.durationOfTouch)
      ensures ok && playing && touch.isTouching && touch.touchHoldEvent != [] ==>
                touch.durationOfTouch == Touch.Duration(now, touch.touchStartTime)
    {
      ok := true;
      if playing && touch.isTouching {
        ok := touch.OnTouchHold(now);
      }
      if ok {
        mode.prevFrameTime := now;
      }
    }

    /** The scene's step of a playing frame; the touch handler, the frame
        time, the view and the best height are left alone. */
    method Play(deltaTime: real, globals: Game.Globals, rnd: real, touch: Touch.TouchEventHandler,
                ghost w: Entities.World)
      returns (ghost w2: Entities.World, ghost passed: seq<Entities.GameObject>,
               ghost cs: seq<Option<Scene.Collider>>)
      requires Entities.Sound(w) && mode in w.modes && 0.0 <= rnd < 1.0 && mode.gameState == Entities.Playing
      modifies w.objects`transform, w.objects`destroyed, w.sprites`bitmap, w.sprites`flipY
      modifies w.animations`frameIndex, w.animations`timer, w.bodies`velocity, w.bodies`angleVelocity
      modifies w.players`timer, w.lavas`xOffset, w.spawners`pipes, w.spawners`totalMoved
      modifies w.backgrounds`backgroundX, w.modes`gameObjects, w.modes`score, w.modes`gameState
      ensures Entities.Sound(w2) && w.GrowsTo(w2)
      ensures old(mode.gameObjects) <= passed && mode.gameObjects == Entities.Survivors(passed)
      ensures |cs| == |passed| && forall k :: 0 <= k < |cs| ==> cs[k] == Scene.ColliderOf(passed[k])
      ensures mode.gameState == if mode in Scene.PassFired(cs, Scene.HitPairs(cs)) then Entities.GameOver else Entities.Playing
      ensures unchanged(touch) && mode.prevFrameTime == old(mode.prevFrameTime) && unchanged(this)
    {
      w2, passed, cs := Scene.PlayingStep(mode, deltaTime, globals, rnd, w);
    }

    /** The rest of a playing frame after the step: the lava check and the
        view, then the best height and the score. */
    method Settle(ok: bool, globals: Game.Globals, touch: Touch.TouchEventHandler, ghost w: Entities.World,
                  ghost passed: seq<Entities.GameObject>, ghost cs: seq<Option<Scene.Collider>>,
                  ghost view: Vec2, ghost best: int)
      requires Valid(w) && worldPosition == view && maxHeight == best
      requires mode.gameObjects == Entities.Survivors(passed)
      requires |cs| == |passed| && forall k :: 0 <= k < |cs| ==> cs[k] == Scene.ColliderOf(passed[k])
      modifies mode`gameState, this`worldPosition, this`maxHeight, mode`score
      ensures Valid(w)
      ensures mode.gameObjects == Entities.Survivors(passed)
      ensures |cs| == |passed| && forall k :: 0 <= k < |cs| ==> cs[k] == Scene.ColliderOf(passed[k])
      ensures mode.gameState ==
                if player.transform.position.y > lava.transform.position.y then Entities.GameOver
                else old(mode.gameState)
      ensures worldPosition == NextView(view, player.transform.position.y, lava.transform.position.y,
                                        globals.screenHeight)
      ensures ok ==> maxHeight == CoerceAtLeast(best, HeightUnits(player.transform.position.y)) &&
                     mode.score == maxHeight + gainedScore
      ensures !ok ==> maxHeight == best
      ensures unchanged(touch) && mode.prevFrameTime == old(mode.prevFrameTime)
    {
      CheckLava(globals.screenHeight, touch, w, passed, cs);
      Score(ok, touch, w, passed, cs);
    }

    /** The game is over when the player is below the lava's surface;
        otherwise the view follows the player up. The pass's objects and
        shapes stay as they are. */
    method CheckLava(screenHeight: int, touch: Touch.TouchEventHandler, ghost w: Entities.World,
                     ghost passed: seq<Entities.GameObject>, ghost cs: seq<Option<Scene.Collider>>)
      requires Valid(w)
      requires mode.gameObjects == Entities.Survivors(passed)
      requires |cs| == |passed| && forall k :: 0 <= k < |cs| ==> cs[k] == Scene.ColliderOf(passed[k])
      modifies mode`gameState, this`worldPosition
      ensures Valid(w)
      ensures mode.gameObjects == Entities.Survivors(passed)
      ensures |cs| == |passed| && forall k :: 0 <= k < |cs| ==> cs[k] == Scene.ColliderOf(passed[k])
      ensures mode.gameState ==
                if player.transform.position.y > lava.transform.position.y then Entities.GameOver
                else old(mode.gameState)
      ensures worldPosition == NextView(old(worldPosition), player.transform.position.y,
                                        lava.transform.position.y, screenHeight)
      ensures unchanged(touch) && mode.prevFrameTime == old(mode.prevFrameTime) && maxHeight == old(maxHeight)
    {
      var display := player.transform.position.Plus(worldPosition);
      if player.transform.position.y > lava.transform.position.y {
        mode.gameState := Entities.GameOver;
      } else if display.y < CameraLine(screenHeight) {
        worldPosition := worldPosition.(y := worldPosition.y - (display.y - CameraLine(screenHeight)));
      }
    }

    /** Unless timing the held touch threw, the best height takes the
        height now shown and the score is the best height plus the points
        gained. */
    method Score(ok: bool, touch: Touch.TouchEventHandler, ghost w: Entities.World,
                 ghost passed: seq<Entities.GameObject>, ghost cs: seq<Option<Scene.Collider>>)
      requires Valid(w)
      requires mode.gameObjects == Entities.Survivors(passed)
      requires |cs| == |passed| && forall k :: 0 <= k < |cs| ==> cs[k] == Scene.ColliderOf(passed[k])
      modifies this`maxHeight, mode`score
      ensures Valid(w)
      ensures mode.gameObjects == Entities.Survivors(passed)
      ensures |cs| == |passed| && forall k :: 0 <= k < |cs| ==> cs[k] == Scene.ColliderOf(passed[k])
      ensures ok ==> maxHeight == CoerceAtLeast(old(maxHeight), HeightUnits(player.transform.position.y)) &&
                     mode.score == maxHeight + gainedScore
      ensures !ok ==> maxHeight == old(maxHeight)
      ensures unchanged(touch) && mode.prevFrameTime == old(mode.prevFrameTime)
      ensures mode.gameState == old(mode.gameState) && worldPosition == old(worldPosition)
    {
      if ok {
        var heightUnits := -BackgroundRules.Round(Game.ToUnits(player.transform.position.y));
        maxHeight := CoerceAtLeast(maxHeight, heightUnits);
        mode.score := maxHeight + gainedScore;
      }
    }

    /** `performReload()`: the player's magazine is filled, at the price of
        the reload penalty. */
    method PerformReload(ghost w: Entities.World)
      requires Valid(w)
      modifies playerBehaviour`remainingAmmo, playerBehaviour`timer
      ensures Valid(w)
      ensures playerBehaviour.remainingAmmo == playerBehaviour.maxAmmo
      ensures playerBehaviour.timer == playerBehaviour.reloadPenaltyTime
      ensures playerBehaviour.reloadPenaltyTime > 0.0 ==>
                !PlayerRules.CanShoot(playerBehaviour.remainingAmmo, playerBehaviour.timer)
    {
      playerBehaviour.Reload();
    }

    /** `onTouchEvent(event)` at screen point (x, y): the touch handler is
        given the point shifted back by the view's offset. */
    method OnTouchEvent(action: Modes.Action, x: real, y: real, now: int, direction: real -> Vec2,
                        globals: Game.Globals, touch: Touch.TouchEventHandler, ghost w: Entities.World)
      returns (handled: bool, ok: bool, ghost shots: seq<Touch.Shot>)
      requires Valid(w)
      requires forall h :: h in touch.touchEndEvent && h.ShootOnRelease? ==> h.player in w.players
      modifies mode`gameState
      modifies touch`touchStartTime, touch`wasDrag, touch`isTouching, touch`startOfTouch, touch`lastKnownTouch
      modifies touch`durationOfTouch, globals`timeScale
      modifies Touch.ShooterBodies(touch.touchEndEvent)`velocity, Touch.ShooterBodies(touch.touchEndEvent)`angleVelocity
      modifies Touch.ShooterSet(touch.touchEndEvent)`remainingAmmo
      modifies w.animators`animation, w.animations`frameIndex, w.animations`timer
      ensures Valid(w)
      ensures handled <==> action != Modes.OtherAction
      ensures mode.gameState ==
                if action == Modes.Down && old(mode.gameState) == Entities.Paused then Entities.Playing
                else old(mode.gameState)
      ensures action == Modes.Down ==>
                ok && globals.timeScale == Touch.ScaleAfter(touch.touchStartEvent, old(globals.timeScale))
      ensures action == Modes.Down && Touch.RecordStart in touch.touchStartEvent ==>
                touch.startOfTouch == Some(Vec2(x, y).Minus(old(worldPosition)))
      ensures action == Modes.Down && touch.touchStartEvent == [Touch.RecordStart, Touch.SlowMotion(mode, playerBehaviour, 0.4)] ==>
                globals.timeScale ==
                  if mode.gameState == Entities.Playing && playerBehaviour.remainingAmmo > 0 &&
                     !PlayerRules.Cooldown(playerBehaviour.timer)
                  then 0.4 else old(globals.timeScale)
      ensures action == Modes.Up && touch.touchEndEvent == [Touch.RecordEnd, Touch.ShootOnRelease(playerBehaviour)] ==>
                ok && globals.timeScale == 1.0 && !touch.isTouching &&
                shots == [Touch.Shot(playerBehaviour, Touch.IsQuickShot(Touch.Duration(now, touch.touchStartTime),
                                                                        touch.wasDrag))] &&
                Touch.LoneShot(playerBehaviour, shots, old(playerBehaviour.remainingAmmo),
                               old(playerBehaviour.body.velocity), old(playerBehaviour.body.angleVelocity), direction)
      ensures action != Modes.Up ==>
                shots == [] && playerBehaviour.remainingAmmo == old(playerBehaviour.remainingAmmo) &&
                playerBehaviour.body.velocity == old(playerBehaviour.body.velocity) &&
                playerBehaviour.body.angleVelocity == old(playerBehaviour.body.angleVelocity)
    {
      var screenPoint := Vec2(x, y).Minus(worldPosition);
      handled, ok, shots := Modes.Dispatch(mode, action, screenPoint.x, screenPoint.y, now, direction, globals, touch, w);
      if action == Modes.Down && touch.touchStartEvent == [Touch.RecordStart, Touch.SlowMotion(mode, playerBehaviour, 0.4)] {
        Modes.OwnStartHandler(touch.touchStartEvent, mode, playerBehaviour, 0.4, old(globals.timeScale));
      }
      if action == Modes.Up && touch.touchEndEvent == [Touch.RecordEnd, Touch.ShootOnRelease(playerBehaviour)] {
        Modes.OwnEndHandler(touch.touchEndEvent, playerBehaviour, old(touch.durationOfTouch), touch.wasDrag,
                            Touch.Duration(now, touch.touchStartTime));
      }
    }
  }

  /** The state `init` leaves: the game paused with no score and no frame
      yet; the scene is the player and then the lava; the player (30
      rounds, the default shot force, a quick-shot bonus of 2) is at the top
      edge, half-way across, turned by -1.5 pi; the lava, rising at least
      225 pixels per second with the default wave, is a fifth of the screen
      down and chases the player. */
  ghost predicate Initial(m: Entities.GameMode, p: Entities.GameObject, behaviour: Entities.PlayerBehaviour,
                          l: Entities.GameObject, lb: Entities.LavaBehaviour, widthPixels: int, heightPixels: int)
    reads m`running, m`score, m`prevFrameTime, m`gameState, m`gameObjects
    reads p`transform, behaviour`maxAmmo, behaviour`remainingAmmo, l`components, l`transform, lb`xOffset
  {
    !m.running && m.score == 0 && m.prevFrameTime == -1 && m.gameState == Entities.Paused &&
    m.gameObjects == [p, l] &&
    p.transform == Entities.Transform(Vec2(widthPixels as real / 2.0, 0.0), PlayerRules.PI * 2.0 * -3.0 / 4.0) &&
    behaviour.maxAmmo == 30 && behaviour.remainingAmmo == 30 &&
    behaviour.shootForce == 900.0 && behaviour.quickshotModifier == 2.0 &&
    l.components == [Entities.LavaC(lb)] && l.transform == Entities.Transform(Vec2(0.0, heightPixels as real * 0.2), 0.0) &&
    lb.lavaMinSpeed == 225.0 && lb.player == p && lb.waveSpeed == LavaRules.WAVE_SPEED && lb.xOffset == 0.0
  }

  /** The world invariants hold of `w`, which holds the mode, the player
      and the lava, and the scene is as `init` leaves it. */
  ghost predicate Built(w: Entities.World, m: Entities.GameMode, p: Entities.GameObject,
                        behaviour: Entities.PlayerBehaviour, l: Entities.GameObject, lb: Entities.LavaBehaviour,
                        widthPixels: int, heightPixels: int)
    reads w.objects`components, w.animators`sprite, w.shapes`gameObject, w.shapes`onCollision
    reads w.bodies`gameObject, w.bodies`mass, w.players`gameObject, w.players`body
    reads w.players`sprite, w.players`animator, w.lavas`gameObject
    reads w.animators`animation, w.animations`frameIndex, w.spawners`pipes, w.modes`gameObjects
    reads m`running, m`score, m`prevFrameTime, m`gameState, m`gameObjects
    reads p`transform, behaviour`maxAmmo, behaviour`remainingAmmo, behaviour`gameObject
    reads l`components, l`transform, lb`xOffset, lb`gameObject
  {
    Entities.Wired(w) && Entities.Live(w) && m in w.modes && p in w.objects && behaviour in w.players &&
    behaviour.gameObject == p && l in w.objects && lb in w.lavas && lb.gameObject == l &&
    Initial(m, p, behaviour, l, lb, widthPixels, heightPixels)
  }

  /** The scene `init` builds, with the mode's handlers added to the touch
      handler's lists. */
  method BuildScene(globals: Game.Globals, touch: Touch.TouchEventHandler, widthPixels: int, heightPixels: int,
                    playerSpriteSheet: Animations.Bitmap)
    returns (m: Entities.GameMode, p: Entities.GameObject, behaviour: Entities.PlayerBehaviour,
             l: Entities.GameObject, lb: Entities.LavaBehaviour, ghost w: Entities.World)
    modifies globals`screenWidth, globals`screenHeight, touch`touchStartEvent, touch`touchEndEvent
    ensures fresh(m) && fresh(p) && fresh(behaviour) && fresh(l) && fresh(lb)
    ensures touch.touchStartEvent == old(touch.touchStartEvent) + [Touch.SlowMotion(m, behaviour, 0.4)]
    ensures touch.touchEndEvent == old(touch.touchEndEvent) + [Touch.ShootOnRelease(behaviour)]
    ensures Built(w, m, p, behaviour, l, lb, widthPixels, heightPixels)
    ensures globals.screenWidth == widthPixels && globals.screenHeight == heightPixels
  {
    var sprite, animator, shape, body, animation;
    m, p, sprite, animator, shape, body, behaviour, animation, l, lb :=
      BuildParts(globals, widthPixels, heightPixels, playerSpriteSheet);
    touch.AddStartHandler(Touch.SlowMotion(m, behaviour, 0.4));
    touch.AddEndHandler(Touch.ShootOnRelease(behaviour));
    w := Entities.World({p, l}, {sprite}, {animator}, {animation}, {shape}, {body}, {behaviour}, {lb}, {}, {}, {m});
    SceneBuilt(w, m, p, sprite, animator, shape, body, behaviour, animation, l, lb, widthPixels, heightPixels);
  }

  /** The objects `init` creates, each with its components. */
  method BuildParts(globals: Game.Globals, widthPixels: int, heightPixels: int, playerSpriteSheet: Animations.Bitmap)
    returns (m: Entities.GameMode, p: Entities.GameObject, sprite: Entities.Sprite, animator: Entities.Animator,
             shape: Entities.CollisionShape, body: Entities.PhysicsBody, behaviour: Entities.PlayerBehaviour,
             animation: Animations.Animation, l: Entities.GameObject, lb: Entities.LavaBehaviour)
    modifies globals`screenWidth, globals`screenHeight
    ensures fresh(m) && fresh(p) && fresh(behaviour) && fresh(l) && fresh(lb)
    ensures Parts(m, p, sprite, animator, shape, body, behaviour, animation, l, lb, widthPixels, heightPixels)
    ensures globals.screenWidth == widthPixels && globals.screenHeight == heightPixels
  {
    m := new Entities.GameMode(globals, widthPixels, heightPixels);
    p, sprite, animator, shape, body, behaviour, animation := EndlessPlayer(m, playerSpriteSheet, widthPixels);
    l, lb := BuildLava(p, heightPixels);
    m.gameObjects := [p, l];
  }

  /** The objects `init` creates are distinct and wired to each other, and
      hold the values `init` gives them. */
  ghost predicate Parts(m: Entities.GameMode, p: Entities.GameObject, sprite: Entities.Sprite,
                        animator: Entities.Animator, shape: Entities.CollisionShape, body: Entities.PhysicsBody,
                        behaviour: Entities.PlayerBehaviour, animation: Animations.Animation,
                        l: Entities.GameObject, lb: Entities.LavaBehaviour, widthPixels: int, heightPixels: int)
    reads p`components, animator`sprite, animator`animation, shape`gameObject, shape`onCollision
    reads body`gameObject, body`mass, behaviour`gameObject, behaviour`body, behaviour`sprite, behaviour`animator
    reads animation`frameIndex, l`components, l`transform, lb`gameObject, lb`xOffset
    reads m`running, m`score, m`prevFrameTime, m`gameState, m`gameObjects, p`transform
    reads behaviour`maxAmmo, behaviour`remainingAmmo
  {
    EndlessPlayerParts(p, sprite, animator, shape, body, behaviour, animation, m, widthPixels) &&
    p != l && l.components == [Entities.LavaC(lb)] && lb.gameObject == l &&
    l.transform == Entities.Transform(Vec2(0.0, heightPixels as real * 0.2), 0.0) &&
    lb.lavaMinSpeed == 225.0 && lb.player == p && lb.waveSpeed == LavaRules.WAVE_SPEED && lb.xOffset == 0.0 &&
    !m.running && m.score == 0 && m.prevFrameTime == -1 && m.gameState == Entities.Paused &&
    m.gameObjects == [p, l]
  }

  /** The player's parts, wired to each other, and the values this mode
      gives the player. */
  ghost predicate EndlessPlayerParts(p: Entities.GameObject, sprite: Entities.Sprite, animator: Entities.Animator,
                                     shape: Entities.CollisionShape, body: Entities.PhysicsBody,
                                     behaviour: Entities.PlayerBehaviour, animation: Animations.Animation,
                                     m: Entities.GameMode, widthPixels: int)
    reads p`components, animator`sprite, animator`animation, shape`gameObject, shape`onCollision
    reads body`gameObject, body`mass, behaviour`gameObject, behaviour`body, behaviour`sprite, behaviour`animator
    reads animation`frameIndex, p`transform, behaviour`maxAmmo, behaviour`remainingAmmo
  {
    Modes.PlayerParts(p, sprite, animator, shape, body, behaviour, animation, m) &&
    p.transform == Entities.Transform(Vec2(widthPixels as real / 2.0, 0.0), PlayerRules.PI * 2.0 * -3.0 / 4.0) &&
    behaviour.maxAmmo == 30 && behaviour.remainingAmmo == 30 &&
    behaviour.shootForce == 900.0 && behaviour.quickshotModifier == 2.0
  }

  /** The player of this mode: 30 rounds, the default shot force, a
      quick-shot bonus of 2, at the top edge half-way across, turned by
      -1.5 pi. */
  method EndlessPlayer(m: Entities.GameMode, sheet: Animations.Bitmap, widthPixels: int)
    returns (p: Entities.GameObject, sprite: Entities.Sprite, animator: Entities.Animator,
             shape: Entities.CollisionShape, body: Entities.PhysicsBody, behaviour: Entities.PlayerBehaviour,
             animation: Animations.Animation)
    ensures fresh(p) && fresh(sprite) && fresh(animator) && fresh(shape) && fresh(body) && fresh(behaviour)
    ensures fresh(animation)
    ensures EndlessPlayerParts(p, sprite, animator, shape, body, behaviour, animation, m, widthPixels)
  {
    p, sprite, animator, shape, body, behaviour, animation :=
      Modes.BuildPlayer(m, sheet, 30, 900.0, 2.0, Vec2(widthPixels as real / 2.0, 0.0),
                        PlayerRules.PI * 2.0 * -3.0 / 4.0);
  }

  /** The lava's object: its behaviour alone, rising at least 225 pixels
      per second after `player`, placed a fifth of the screen down. */
  method BuildLava(player: Entities.GameObject, heightPixels: int)
    returns (o: Entities.GameObject, lava: Entities.LavaBehaviour)
    ensures fresh(o) && fresh(lava)
    ensures o.name == "Lava" && o.drawingLayer == Entities.Middle && !o.destroyed
    ensures o.components == [Entities.LavaC(lava)] && lava.gameObject == o
    ensures o.transform == Entities.Transform(Vec2(0.0, heightPixels as real * 0.2), 0.0)
    ensures lava.lavaMinSpeed == 225.0 && lava.player == player && lava.waveSpeed == LavaRules.WAVE_SPEED
    ensures lava.xOffset == 0.0
  {
    lava := new Entities.LavaBehaviour(225.0, player);
    var builder := new Entities.Builder("Lava");
    var b, _ := builder.WithComponent(Entities.LavaC(lava));
    o := builder.Build();
    o.transform := o.transform.(position := Vec2(0.0, heightPixels as real * 0.2));
  }

  /** The world of the objects `init` creates keeps the world's
      invariants, and the scene is as `init` leaves it. */
  lemma SceneBuilt(w: Entities.World, m: Entities.GameMode, p: Entities.GameObject, sprite: Entities.Sprite,
                   animator: Entities.Animator, shape: Entities.CollisionShape, body: Entities.PhysicsBody,
                   behaviour: Entities.PlayerBehaviour, animation: Animations.Animation,
                   l: Entities.GameObject, lb: Entities.LavaBehaviour, widthPixels: int, heightPixels: int)
    requires w == Entities.World({p, l}, {sprite}, {animator}, {animation}, {shape}, {body}, {behaviour}, {lb},
                                 {}, {}, {m})
    requires Parts(m, p, sprite, animator, shape, body, behaviour, animation, l, lb, widthPixels, heightPixels)
    ensures Built(w, m, p, behaviour, l, lb, widthPixels, heightPixels)
  {
    SceneWired(w, p, sprite, animator, shape, body, behaviour, animation, l, lb, m);
  }

  /** The scene `init` builds satisfies the world's wiring invariant. */
  lemma SceneWired(w: Entities.World, player: Entities.GameObject, sprite: Entities.Sprite,
                   animator: Entities.Animator, shape: Entities.CollisionShape, body: Entities.PhysicsBody,
                   behaviour: Entities.PlayerBehaviour, animation: Animations.Animation,
                   l: Entities.GameObject, lb: Entities.LavaBehaviour, mode: Entities.GameMode)
    requires w == Entities.World({player, l}, {sprite}, {animator}, {animation}, {shape}, {body}, {behaviour}, {lb},
                                 {}, {}, {mode})
    requires Modes.PlayerParts(player, sprite, animator, shape, body, behaviour, animation, mode)
    requires l.components == [Entities.LavaC(lb)] && lb.gameObject == l && lb.player == player
    ensures Entities.Wired(w)
  {
    forall o, i | o in w.objects && 0 <= i < |o.components|
      ensures w.Holds(o.components[i])
      ensures o.components[i].ShapeC? ==> o.components[i].shape.gameObject == o
    {
      if o == player {
        assert o.components[i] in player.components;
      }
    }
    forall m | m in Entities.Targets(shape.onCollision)
      ensures m == mode
    {
    }
  }
}
