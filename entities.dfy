/** The entity/component registry: game objects, the components attached
    to them, and the game-mode state that components and collision
    callbacks write to. These refer to one another (an object holds its
    components, each component points back at its object, the pipe spawner
    and the collision callbacks point at the game mode, the game mode holds
    the objects), so they share one module. */
module Entities {
  import opened Wrappers
  import opened Vectors
  import Game
  import Physics
  import Animations
  import Collision
  import Motion
  import PlayerRules
  import LavaRules
  import PipeRules
  import BackgroundRules

  /** The root-package `Game.timeScale` the physics body reads: it starts
      at 1.0 and only the root `Game`, which no screen creates, writes it. */
  const ROOT_TIME_SCALE: real := 1.0

  /** The order in which objects are drawn. */
  datatype DrawingLayer = Background | Middle

  datatype GameState = Paused | Playing | GameOver

  /** Position and rotation of a game object. */
  datatype Transform = Transform(position: Vec2, rotation: real)

  /** The component classes, for the type test of `getComponent<T>`. */
  datatype Kind = SpriteKind | AnimatorKind | ShapeKind | BodyKind | PlayerKind | LavaKind | SpawnerKind | BackgroundKind

  /** A component attached to a game object: one of the component classes. */
  datatype Component =
    | SpriteC(sprite: Sprite)
    | AnimatorC(animator: Animator)
    | ShapeC(shape: CollisionShape)
    | BodyC(body: PhysicsBody)
    | PlayerC(player: PlayerBehaviour)
    | LavaC(lava: LavaBehaviour)
    | SpawnerC(spawner: PipeSpawner)
    | BackgroundC(background: SeamlessBackground)
  {
    function KindOf(): Kind
    {
      match this
      case SpriteC(_) => SpriteKind
      case AnimatorC(_) => AnimatorKind
      case ShapeC(_) => ShapeKind
      case BodyC(_) => BodyKind
      case PlayerC(_) => PlayerKind
      case LavaC(_) => LavaKind
      case SpawnerC(_) => SpawnerKind
      case BackgroundC(_) => BackgroundKind
    }

    // The component object, seen as a set of its class (empty for the
    // other classes); used to name its fields in frames.
    function Sprites(): set<Sprite> { if SpriteC? then {sprite} else {} }
    function Animators(): set<Animator> { if AnimatorC? then {animator} else {} }
    function Shapes(): set<CollisionShape> { if ShapeC? then {shape} else {} }
    function Bodies(): set<PhysicsBody> { if BodyC? then {body} else {} }
    function Players(): set<PlayerBehaviour> { if PlayerC? then {player} else {} }
    function Lavas(): set<LavaBehaviour> { if LavaC? then {lava} else {} }
    function Spawners(): set<PipeSpawner> { if SpawnerC? then {spawner} else {} }
    function Backgrounds(): set<SeamlessBackground> { if BackgroundC? then {background} else {} }

    /** The `gameObject` back-reference (null until attached). */
    function Owner(): GameObject?
      reads Sprites()`gameObject, Animators()`gameObject, Shapes()`gameObject, Bodies()`gameObject
      reads Players()`gameObject, Lavas()`gameObject, Spawners()`gameObject, Backgrounds()`gameObject
    {
      match this
      case SpriteC(s) => s.gameObject
      case AnimatorC(a) => a.gameObject
      case ShapeC(s) => s.gameObject
      case BodyC(b) => b.gameObject
      case PlayerC(p) => p.gameObject
      case LavaC(l) => l.gameObject
      case SpawnerC(s) => s.gameObject
      case BackgroundC(b) => b.gameObject
    }

    /** `transform`: the owning object's transform. */
    function Transform(): (r: Transform)
      reads Sprites()`gameObject, Animators()`gameObject, Shapes()`gameObject, Bodies()`gameObject
      reads Players()`gameObject, Lavas()`gameObject, Spawners()`gameObject, Backgrounds()`gameObject
      reads Owner()`transform
      requires Owner() != null
    {
      Owner().transform
    }

    /** `getComponent<T>()`: the lookup on the owning object. */
    function GetComponent(k: Kind): (r: Option<Component>)
      reads Sprites()`gameObject, Animators()`gameObject, Shapes()`gameObject, Bodies()`gameObject
      reads Players()`gameObject, Lavas()`gameObject, Spawners()`gameObject, Backgrounds()`gameObject
      reads Owner()`components
      requires Owner() != null
    {
      Owner().GetComponent(k)
    }

    /** Sets the back-reference (the first step of `addComponent`). */
    method Attach(o: GameObject)
      modifies Sprites()`gameObject, Animators()`gameObject, Shapes()`gameObject, Bodies()`gameObject
      modifies Players()`gameObject, Lavas()`gameObject, Spawners()`gameObject, Backgrounds()`gameObject
      ensures Owner() == o
    {
      match this
      case SpriteC(s) => s.gameObject := o;
      case AnimatorC(a) => a.gameObject := o;
      case ShapeC(s) => s.gameObject := o;
      case BodyC(b) => b.gameObject := o;
      case PlayerC(p) => p.gameObject := o;
      case LavaC(l) => l.gameObject := o;
      case SpawnerC(s) => s.gameObject := o;
      case BackgroundC(b) => b.gameObject := o;
    }

    /** `initialize()`: the animator and the player behaviour look up their
        siblings; every other component keeps the default, which does
        nothing. `ok` is false where the source's `!!` throws. */
    method Initialize() returns (ok: bool)
      requires Owner() != null
      modifies Animators()`sprite, Players()`body, Players()`sprite, Players()`animator
      ensures AnimatorC? ==> (ok <==> Owner().GetComponent(SpriteKind).Some?)
      ensures AnimatorC? && ok ==> animator.sprite == Owner().GetComponent(SpriteKind).value.sprite
      ensures PlayerC? ==> (ok <==> player.SiblingsPresent())
      ensures PlayerC? && ok ==> player.Linked()
      ensures !AnimatorC? && !PlayerC? ==> ok
    {
      match this
      case AnimatorC(a) =>
        ok := a.Initialize();
      case PlayerC(p) =>
        ok := p.Initialize();
      case _ =>
        ok := true;
    }

    /** `update(deltaTime)` of the component's class; the sprite and the
        collision shape keep the default, which does nothing. `rnd` is the
        spawner's draw for this frame. Each class's update has the effect
        its own `Update` states; only the spawner grows the world, by
        fresh pipes appended to its mode's objects; `added` is the pair a
        spawner spawned, empty for every other class. */
    method Update(deltaTime: real, globals: Game.Globals, rnd: real, ghost w: World,
                  ghost w0: World, ghost lists0: map<GameMode, seq<GameObject>>)
      returns (ghost added: seq<GameObject>, ghost w2: World)
      requires Wired(w) && Live(w) && w0.Hosts(this) && 0.0 <= rnd < 1.0
      requires w0.GrowsTo(w) && forall m :: m in w0.modes ==> m in lists0 && lists0[m] <= m.gameObjects
      modifies w.objects`transform, w.objects`destroyed, w.sprites`bitmap, w.sprites`flipY
      modifies w.animations`frameIndex, w.animations`timer, w.bodies`velocity, w.bodies`angleVelocity
      modifies w.players`timer, w.lavas`xOffset, w.spawners`pipes, w.spawners`totalMoved
      modifies w.backgrounds`backgroundX, w.modes`gameObjects, w.modes`score
      ensures Wired(w2) && Live(w2) && w0.GrowsTo(w2) && w.objects <= w2.objects && fresh(w2.objects - w.objects)
      ensures forall m :: m in w0.modes ==> lists0[m] <= m.gameObjects
      ensures !SpawnerC? ==> w2 == w && added == []
      ensures SpriteC? || ShapeC? ==>
                unchanged(w.objects, w.sprites, w.animations, w.bodies, w.players, w.lavas) &&
                unchanged(w.spawners, w.backgrounds, w.modes)
      ensures AnimatorC? ==> AnimatorStepped(animator.sprite, animator.animation, deltaTime)
      ensures BodyC? ==> BodyStepped(body, body.gameObject, deltaTime)
      ensures PlayerC? ==> PlayerStepped(player, player.gameObject, player.body, player.sprite, deltaTime, globals)
      ensures LavaC? ==> LavaStepped(lava, lava.gameObject, deltaTime)
      ensures SpawnerC? ==> SpawnerStepped(spawner, deltaTime, globals, rnd, old(spawner.pipes), added)
      ensures BackgroundC? ==>
                background.backgroundX == BackgroundRules.Scroll(old(background.backgroundX), deltaTime,
                                                                 background.backgroundSpeed,
                                                                 background.backgroundImage.Width())
    {
      if SpawnerC? {
        added, w2 := SpawnerStep(spawner, deltaTime, globals, rnd, w);
      } else {
        UpdateInPlace(deltaTime, globals, w, w0);
        added, w2 := [], w;
      }
    }

    /** The update of every class but the spawner: the world keeps its
        objects and its modes keep their lists and scores. */
    method UpdateInPlace(deltaTime: real, globals: Game.Globals, ghost w: World, ghost w0: World)
      requires !SpawnerC? && Wired(w) && Live(w) && w0.Hosts(this) && w0.GrowsTo(w)
      modifies w.objects`transform, w.objects`destroyed, w.sprites`bitmap, w.sprites`flipY
      modifies w.animations`frameIndex, w.animations`timer, w.bodies`velocity, w.bodies`angleVelocity
      modifies w.players`timer, w.lavas`xOffset, w.backgrounds`backgroundX
      ensures Wired(w) && Live(w)
      ensures SpriteC? || ShapeC? ==>
                unchanged(w.objects, w.sprites, w.animations, w.bodies, w.players, w.lavas) &&
                unchanged(w.spawners, w.backgrounds, w.modes)
      ensures AnimatorC? ==> AnimatorStepped(animator.sprite, animator.animation, deltaTime)
      ensures BodyC? ==> BodyStepped(body, body.gameObject, deltaTime)
      ensures PlayerC? ==> PlayerStepped(player, player.gameObject, player.body, player.sprite, deltaTime, globals)
      ensures LavaC? ==> LavaStepped(lava, lava.gameObject, deltaTime)
      ensures BackgroundC? ==>
                background.backgroundX == BackgroundRules.Scroll(old(background.backgroundX), deltaTime,
                                                                 background.backgroundSpeed,
                                                                 background.backgroundImage.Width())
    {
      match this
      case SpriteC(_) =>
      case ShapeC(_) =>
      case AnimatorC(a) =>
        AnimatorStep(a, deltaTime, w);
      case BodyC(b) =>
        BodyStep(b, deltaTime, w);
      case PlayerC(p) =>
        PlayerStep(p, deltaTime, globals, w);
      case LavaC(l) =>
        LavaStep(l, deltaTime, w);
      case BackgroundC(b) =>
        BackgroundStep(b, deltaTime, w);
    }
  }

  // What one update of each component class does, relating the state
  // after it to the state before.

  /** The animator's animation advanced by `Tick` and the sprite shows the
      animation's current frame; without an animation the sprite is left
      as it was. */
  twostate predicate AnimatorStepped(sp: Sprite, an: Animations.Animation?, deltaTime: real)
    reads sp`bitmap, if an == null then {} else {an}
  {
    (an == null ==> sp.bitmap == old(sp.bitmap)) &&
    (an != null ==>
       old(an.frameIndex) >= 0 &&
       var t := Animations.Tick(old(an.frameIndex), old(an.timer), an.frameCount, deltaTime);
       var rect := Animations.FrameRect(an.frameIndex, an.rows, an.columns, an.frameWidth, an.frameHeight, an.firstFrameY);
       an.frameIndex == t.frameIndex && an.timer == t.timer && rect.Some? &&
       sp.bitmap == Animations.Region(an.bitmap, rect.value))
  }

  /** The body and its object `o` moved by one step of the physics as the
      source performs it (`Motion.StepAsWritten`). */
  twostate predicate BodyStepped(b: PhysicsBody, o: GameObject, deltaTime: real)
    reads b`velocity, b`angleVelocity, b`useGravity, b`useDampening, o`transform
  {
    var r := Motion.StepAsWritten(Motion.BodyState(old(o.transform.position), old(o.transform.rotation),
                                                   old(b.velocity), old(b.angleVelocity)),
                                  b.useGravity, b.useDampening, deltaTime);
    o.transform == Transform(r.position, r.rotation) &&
    b.velocity == r.velocity && b.angleVelocity == r.angleVelocity
  }

  /** The player's cooldown counted down, its sprite `sp` turned by the
      screen half, and its object `o` clamped into the screen with a bounce
      of its body `b` when an edge was crossed. */
  twostate predicate PlayerStepped(p: PlayerBehaviour, o: GameObject, b: PhysicsBody, sp: Sprite,
                                   deltaTime: real, globals: Game.Globals)
    reads p`timer, o`transform, b`velocity, b`angleVelocity, sp`flipY, sp`bitmap, globals`screenWidth
  {
    p.timer == PlayerRules.CoolDown(old(p.timer), deltaTime) &&
    sp.flipY == PlayerRules.FacesLeftHalf(old(o.transform.position.x), globals.screenWidth) &&
    var c := PlayerRules.ClampToScreen(old(o.transform.position.x), globals.screenWidth, sp.bitmap.Width());
    o.transform == old(o.transform).(position := Vec2(c.x, old(o.transform.position.y))) &&
    (c.bounced ==> b.velocity == PlayerRules.BounceVelocity(old(b.velocity)) &&
                   b.angleVelocity == PlayerRules.BounceSpin(old(b.angleVelocity))) &&
    (!c.bounced ==> b.velocity == old(b.velocity) && b.angleVelocity == old(b.angleVelocity))
  }

  /** The lava's object `o` risen by its speed, taken from the positions
      before the move, and its wave advanced. */
  twostate predicate LavaStepped(l: LavaBehaviour, o: GameObject, deltaTime: real)
    reads l`xOffset, o`transform, l.player`transform
  {
    o.transform ==
      old(o.transform).(position := LavaRules.Rise(old(o.transform.position),
        LavaRules.Speed(old(o.transform.position.y), old(l.player.transform.position.y), l.lavaMinSpeed),
        deltaTime)) &&
    l.xOffset == LavaRules.AdvanceWave(old(l.xOffset), l.waveSpeed, deltaTime)
  }

  /** The spawner's pipes `pipes0` scrolled and flagged once past the left
      edge; the flagged ones dropped with a point each; the distance
      counted, and reset when the pair `added` spawned at the gap drawn
      from `rnd`; `added`, empty when nothing spawned, appended to both the
      spawner's and the mode's lists. */
  twostate predicate SpawnerStepped(s: PipeSpawner, deltaTime: real, globals: Game.Globals, rnd: real,
                                    pipes0: seq<GameObject>, new added: seq<GameObject>)
    requires 0.0 <= rnd < 1.0
    reads s`pipes, s`totalMoved, s.flappyMode`score, s.flappyMode`gameObjects
    reads globals`screenWidth, globals`screenHeight
    reads (set p | p in pipes0)`transform, (set p | p in pipes0)`destroyed
    reads (set p | p in added)`components, (set p | p in added)`transform, (set p | p in added)`destroyed
  {
    (forall p :: p in pipes0 ==>
       p.transform == old(p.transform).(position := PipeRules.Scroll(old(p.transform.position), s.pipeSpeed, deltaTime))) &&
    (forall p :: p in pipes0 ==>
       (p.destroyed <==> old(p.destroyed) || PipeRules.OffScreen(p.transform.position.x, s.pipeSprite.Width()))) &&
    s.pipes == Survivors(pipes0) + added &&
    s.flappyMode.score == old(s.flappyMode.score) + (|pipes0| - |Survivors(pipes0)|) &&
    s.flappyMode.gameObjects == old(s.flappyMode.gameObjects) + added &&
    var moved := old(s.totalMoved) + s.pipeSpeed * deltaTime;
    if moved > s.spawnDistance + s.pipeSprite.Width() as real then
      s.totalMoved == 0.0 && |added| == 2 &&
      var offset := PipeRules.GapCentre(globals.screenHeight, rnd);
      IsPipe(added[0], s.pipeSprite, PipeRules.TopPipePosition(globals.screenWidth, offset, s.spaceTopBottom,
                                                              s.pipeSprite.Width(), s.pipeSprite.Height())) &&
      IsPipe(added[1], s.pipeSprite, PipeRules.BottomPipePosition(globals.screenWidth, offset, s.spaceTopBottom,
                                                                 s.pipeSprite.Width(), s.pipeSprite.Height()))
    else
      s.totalMoved == moved && added == []
  }

  // The updates of the component classes, each keeping the world's
  // invariants; only the spawner grows the world.

  method BodyStep(b: PhysicsBody, deltaTime: real, ghost w: World)
    requires Wired(w) && Live(w) && b in w.bodies
    modifies w.objects`transform, w.bodies`velocity, w.bodies`angleVelocity
    ensures Wired(w) && Live(w)
    ensures BodyStepped(b, b.gameObject, deltaTime)
  {
    b.Update(deltaTime);
  }

  method PlayerStep(p: PlayerBehaviour, deltaTime: real, globals: Game.Globals, ghost w: World)
    requires Wired(w) && Live(w) && p in w.players
    modifies w.objects`transform, w.bodies`velocity, w.bodies`angleVelocity, w.players`timer, w.sprites`flipY
    ensures Wired(w) && Live(w)
    ensures PlayerStepped(p, p.gameObject, p.body, p.sprite, deltaTime, globals)
  {
    p.Update(deltaTime, globals);
  }

  method LavaStep(l: LavaBehaviour, deltaTime: real, ghost w: World)
    requires Wired(w) && Live(w) && l in w.lavas
    modifies w.objects`transform, w.lavas`xOffset
    ensures Wired(w) && Live(w)
    ensures LavaStepped(l, l.gameObject, deltaTime)
  {
    l.Update(deltaTime);
  }

  method BackgroundStep(b: SeamlessBackground, deltaTime: real, ghost w: World)
    requires Wired(w) && Live(w) && b in w.backgrounds
    modifies w.backgrounds`backgroundX
    ensures Wired(w) && Live(w)
    ensures b.backgroundX == BackgroundRules.Scroll(old(b.backgroundX), deltaTime, b.backgroundSpeed, b.backgroundImage.Width())
  {
    b.Update(deltaTime);
  }

  method SpawnerStep(s: PipeSpawner, deltaTime: real, globals: Game.Globals, rnd: real, ghost w: World)
    returns (ghost added: seq<GameObject>, ghost w2: World)
    requires Wired(w) && Live(w) && s in w.spawners && 0.0 <= rnd < 1.0
    modifies w.objects`transform, w.objects`destroyed, w.spawners`pipes, w.spawners`totalMoved
    modifies w.modes`gameObjects, w.modes`score
    ensures Wired(w2) && Live(w2) && w.GrowsTo(w2) && fresh(w2.objects - w.objects)
    ensures forall m :: m in w.modes ==> old(m.gameObjects) <= m.gameObjects
    ensures SpawnerStepped(s, deltaTime, globals, rnd, old(s.pipes), added)
  {
    added, w2 := s.Update(deltaTime, globals, rnd, w);
  }

  /** A body's velocity `v` and spin `s` after a shot attempt from
      velocity `v0` and spin `s0`: when `fired`, pushed by `kick` on its
      `mass` with the spin set to `spin`; otherwise untouched. */
  predicate Kicked(fired: bool, v0: Vec2, s0: real, v: Vec2, s: real, kick: Vec2, mass: real, spin: real)
    requires mass != 0.0
  {
    if fired then v == Motion.Impulse(v0, kick, mass) && s == spin
    else v == v0 && s == s0
  }

  /** A shot: fired exactly when the player has a round and no cooldown,
      spending that round and kicking the body; the world keeps its
      invariants, since the animation it starts is the player's own. */
  method ShootStep(p: PlayerBehaviour, quickShot: bool, direction: real -> Vec2, ghost w: World)
    returns (fired: bool)
    requires Wired(w) && Live(w) && p in w.players
    modifies p.body`velocity, p.body`angleVelocity, p`remainingAmmo
    modifies w.animators`animation, w.animations`frameIndex, w.animations`timer
    ensures Wired(w) && Live(w)
    ensures fired <==> PlayerRules.CanShoot(old(p.remainingAmmo), p.timer)
    ensures p.remainingAmmo == PlayerRules.AmmoAfterShot(old(p.remainingAmmo), p.timer)
    ensures Kicked(fired, old(p.body.velocity), old(p.body.angleVelocity), p.body.velocity, p.body.angleVelocity,
                   p.ShotKick(quickShot, direction), p.body.mass, PlayerRules.SpinAfterShot(p.sprite.flipY))
  {
    ghost var held := p.animator.animation;
    fired := p.Shoot(quickShot, direction);
    assert LiveAnimations(w) by {
      forall a | a in w.animations ensures a.Valid() {
        if a == held && fired {
          assert a.frameIndex == 0;
        }
      }
    }
  }

  /** An animator's update keeps the animations in range. */
  method AnimatorStep(a: Animator, deltaTime: real, ghost w: World)
    requires Wired(w) && Live(w) && a in w.animators
    modifies w.animations`frameIndex, w.animations`timer, w.sprites`bitmap
    ensures Wired(w) && Live(w)
    ensures AnimatorStepped(a.sprite, a.animation, deltaTime)
  {
    a.Update(deltaTime);
  }

  /** Index of the first component of kind `k`, if any. */
  function FirstOfKind(cs: seq<Component>, k: Kind): (r: Option<nat>)
    ensures r.Some? ==> r.value < |cs| && cs[r.value].KindOf() == k &&
                        forall j :: 0 <= j < r.value ==> cs[j].KindOf() != k
    ensures r.None? ==> forall j :: 0 <= j < |cs| ==> cs[j].KindOf() != k
  {
    if cs == [] then None
    else if cs[0].KindOf() == k then Some(0)
    else match FirstOfKind(cs[1..], k)
      case None => None
      case Some(i) => Some(i + 1)
  }

  predicate Distinct<T(==)>(s: seq<T>)
  {
    forall i, j :: 0 <= i < j < |s| ==> s[i] != s[j]
  }

  /** `list.remove(x)`: drops the first occurrence of `x`, if there is one. */
  function RemoveFirst<T(==)>(s: seq<T>, x: T): (r: seq<T>)
    ensures x !in s ==> r == s
    ensures x in s ==> |r| == |s| - 1
  {
    if s == [] then []
    else if s[0] == x then s[1..]
    else [s[0]] + RemoveFirst(s[1..], x)
  }

  /** Extending a prefix by the next element gives the longer prefix. */
  lemma TakeOneMore<T>(s: seq<T>, i: nat)
    requires i < |s|
    ensures s[..i + 1] == s[..i] + [s[i]]
  {
  }

  /** In a list without repetitions, removing the element at index `i`
      removes exactly that position. */
  lemma {:induction false} RemoveFirstAt<T>(s: seq<T>, i: nat)
    requires Distinct(s) && i < |s|
    ensures RemoveFirst(s, s[i]) == s[..i] + s[i + 1..]
  {
    if i > 0 {
      assert s[0] != s[i];
      RemoveFirstAt(s[1..], i - 1);
      assert s[1..][..i - 1] == s[1..i];
      assert s[1..][i - 1 + 1..] == s[i + 1..];
      assert [s[0]] + s[1..i] == s[..i];
    }
  }

  /** The objects of `s` that are not destroyed, in order. */
  function Survivors(s: seq<GameObject>): (r: seq<GameObject>)
    reads (set o | o in s)`destroyed
    ensures |r| <= |s|
    ensures forall o :: o in r ==> o in s && !o.destroyed
  {
    if s == [] then []
    else if s[0].destroyed then Survivors(s[1..])
    else [s[0]] + Survivors(s[1..])
  }

  /** Every object of `s` that is not destroyed survives. */
  lemma {:induction false} SurvivorsKeep(s: seq<GameObject>)
    ensures forall o :: o in s && !o.destroyed ==> o in Survivors(s)
  {
    if s != [] {
      SurvivorsKeep(s[1..]);
      assert forall o :: o in s ==> o == s[0] || o in s[1..];
    }
  }

  lemma {:induction false} SurvivorsAppend(a: seq<GameObject>, b: seq<GameObject>)
    ensures Survivors(a + b) == Survivors(a) + Survivors(b)
  {
    if a == [] {
      assert a + b == b;
    } else {
      assert (a + b)[0] == a[0];
      assert (a + b)[1..] == a[1..] + b;
      SurvivorsAppend(a[1..], b);
    }
  }

  lemma {:induction false} SurvivorsDistinct(s: seq<GameObject>)
    requires Distinct(s)
    ensures Distinct(Survivors(s))
  {
    if s != [] {
      SurvivorsDistinct(s[1..]);
    }
  }

  /** One step of a removal loop running from the back of `s`: with the
      positions after `i` already compacted, removing `s[i]` if it is
      destroyed (or keeping it) leaves the positions from `i` compacted. */
  lemma {:induction false} CompactStep(s: seq<GameObject>, i: nat)
    requires Distinct(s) && i < |s|
    ensures var before := s[..i + 1] + Survivors(s[i + 1..]);
            var after := s[..i] + Survivors(s[i..]);
            |before| == i + 1 + |Survivors(s[i + 1..])| && before[i] == s[i] &&
            (s[i].destroyed ==> RemoveFirst(before, s[i]) == after) &&
            (!s[i].destroyed ==> before == after)
  {
    var before := s[..i + 1] + Survivors(s[i + 1..]);
    assert s[i..][1..] == s[i + 1..];
    assert s[..i + 1] == s[..i] + [s[i]];
    if s[i].destroyed {
      SurvivorsDistinct(s[i + 1..]);
      assert Distinct(before) by {
        forall j, k | 0 <= j < k < |before|
          ensures before[j] != before[k]
        {
          if k > i {
            assert before[k] in Survivors(s[i + 1..]);
            assert before[k] in s[i + 1..];
            if j <= i {
              assert before[j] == s[j];
            }
          }
        }
      }
      RemoveFirstAt(before, i);
      assert before[..i] == s[..i];
      assert before[i + 1..] == Survivors(s[i + 1..]);
    }
  }

  /** A game object: an ordered list of components, a transform held
      apart from that list, a drawing layer and a destroyed flag. */
  class GameObject {
    const name: string
    const drawingLayer: DrawingLayer
    var components: seq<Component>
    var transform: Transform
    var destroyed: bool

    /** The private constructor the builder calls. */
    constructor (name: string, drawingLayer: DrawingLayer := Middle)
      ensures this.name == name && this.drawingLayer == drawingLayer
      ensures components == [] && transform == Transform(ZERO, 0.0) && !destroyed
    {
      this.name := name;
      this.drawingLayer := drawingLayer;
      components := [];
      transform := Transform(ZERO, 0.0);
      destroyed := false;
    }

    /** `getComponent<T>()`: the first component of the kind, in list
        order, or none when no component is of that kind. */
    function GetComponent(k: Kind): (r: Option<Component>)
      reads this`components
      ensures r.None? <==> forall j :: 0 <= j < |components| ==> components[j].KindOf() != k
      ensures r.Some? ==> r.value.KindOf() == k &&
                          exists i :: 0 <= i < |components| && components[i] == r.value &&
                                      forall j :: 0 <= j < i ==> components[j].KindOf() != k
    {
      match FirstOfKind(components, k)
      case None => None
      case Some(i) => Some(components[i])
    }

    /** `addComponent(component)`: appends it, points it back at this
        object, then initializes it. The source always answers true (or
        throws from `initialize`); `initialized` is false where it throws. */
    method AddComponent(c: Component) returns (initialized: bool)
      modifies this`components
      modifies c.Sprites()`gameObject, c.Animators()`gameObject, c.Shapes()`gameObject, c.Bodies()`gameObject
      modifies c.Players()`gameObject, c.Lavas()`gameObject, c.Spawners()`gameObject, c.Backgrounds()`gameObject
      modifies c.Animators()`sprite, c.Players()`body, c.Players()`sprite, c.Players()`animator
      ensures components == old(components) + [c]
      ensures c.Owner() == this
      ensures c.AnimatorC? ==> (initialized <==> GetComponent(SpriteKind).Some?)
      ensures c.AnimatorC? && initialized ==> c.animator.sprite == GetComponent(SpriteKind).value.sprite
      ensures c.PlayerC? ==> (initialized <==> c.player.SiblingsPresent())
      ensures c.PlayerC? && initialized ==> c.player.Linked()
      ensures !c.AnimatorC? && !c.PlayerC? ==> initialized
    {
      components := components + [c];
      c.Attach(this);
      initialized := c.Initialize();
    }

    /** Components whose `draw` runs for `layer`: all of them on the
        object's own layer, none on any other. */
    function DrawnComponents(layer: DrawingLayer): (r: seq<Component>)
      reads this`components
      ensures layer == drawingLayer ==> r == components
      ensures layer != drawingLayer ==> r == []
    {
      if layer == drawingLayer then components else []
    }

    /** `update(deltaTime)`: every component updates, in list order. */
    method Update(deltaTime: real, globals: Game.Globals, rnd: real, ghost w: World,
                  ghost w0: World, ghost lists0: map<GameMode, seq<GameObject>>)
      returns (ghost w2: World)
      requires Wired(w) && Live(w) && this in w.objects && 0.0 <= rnd < 1.0
      requires w0.GrowsTo(w) && forall m :: m in w0.modes ==> m in lists0 && lists0[m] <= m.gameObjects
      modifies w.objects`transform, w.objects`destroyed, w.sprites`bitmap, w.sprites`flipY
      modifies w.animations`frameIndex, w.animations`timer, w.bodies`velocity, w.bodies`angleVelocity
      modifies w.players`timer, w.lavas`xOffset, w.spawners`pipes, w.spawners`totalMoved
      modifies w.backgrounds`backgroundX, w.modes`gameObjects, w.modes`score
      ensures Wired(w2) && Live(w2) && w0.GrowsTo(w2) && w.objects <= w2.objects && fresh(w2.objects - w.objects)
      ensures forall m :: m in w0.modes ==> lists0[m] <= m.gameObjects
    {
      var cs := components;
      assert forall k :: 0 <= k < |cs| ==> w0.Hosts(cs[k]) by {
        forall k | 0 <= k < |cs| ensures w0.Hosts(cs[k]) {
          assert w.Holds(cs[k]);
        }
      }
      w2 := UpdateComponents(cs, deltaTime, globals, rnd, w, w0, lists0);
    }
  }

  /** The components `cs` update one after the other, in list order. */
  method UpdateComponents(cs: seq<Component>, deltaTime: real, globals: Game.Globals, rnd: real,
                          ghost w: World, ghost w0: World, ghost lists0: map<GameMode, seq<GameObject>>)
    returns (ghost w2: World)
    requires Wired(w) && Live(w) && 0.0 <= rnd < 1.0 && forall k :: 0 <= k < |cs| ==> w0.Hosts(cs[k])
    requires w0.GrowsTo(w) && forall m :: m in w0.modes ==> m in lists0 && lists0[m] <= m.gameObjects
    modifies w.objects`transform, w.objects`destroyed, w.sprites`bitmap, w.sprites`flipY
    modifies w.animations`frameIndex, w.animations`timer, w.bodies`velocity, w.bodies`angleVelocity
    modifies w.players`timer, w.lavas`xOffset, w.spawners`pipes, w.spawners`totalMoved
    modifies w.backgrounds`backgroundX, w.modes`gameObjects, w.modes`score
    ensures Wired(w2) && Live(w2) && w0.GrowsTo(w2) && w.objects <= w2.objects && fresh(w2.objects - w.objects)
    ensures forall m :: m in w0.modes ==> lists0[m] <= m.gameObjects
    decreases |cs|
  {
    if cs == [] {
      return w;
    }
    ghost var _, w1 := cs[0].Update(deltaTime, globals, rnd, w, w0, lists0);
    w2 := UpdateComponents(cs[1..], deltaTime, globals, rnd, w1, w0, lists0);
  }

  /** `GameObject.Builder`: creates the object, then applies the calls. */
  class Builder {
    const gameObject: GameObject

    constructor (name: string, drawingLayer: DrawingLayer := Middle)
      ensures fresh(gameObject)
      ensures gameObject.name == name && gameObject.drawingLayer == drawingLayer
      ensures gameObject.components == [] && gameObject.transform == Transform(ZERO, 0.0) && !gameObject.destroyed
    {
      gameObject := new GameObject(name, drawingLayer);
    }

    /** `withTransform`: sets position and rotation; the components stay. */
    method WithTransform(position: Vec2 := ZERO, rotation: real := 0.0) returns (b: Builder)
      modifies gameObject`transform
      ensures b == this
      ensures gameObject.transform == Transform(position, rotation)
    {
      gameObject.transform := Transform(position, rotation);
      b := this;
    }

    /** `withComponent`: `addComponent` on the object being built. */
    method WithComponent(c: Component) returns (b: Builder, initialized: bool)
      modifies gameObject`components
      modifies c.Sprites()`gameObject, c.Animators()`gameObject, c.Shapes()`gameObject, c.Bodies()`gameObject
      modifies c.Players()`gameObject, c.Lavas()`gameObject, c.Spawners()`gameObject, c.Backgrounds()`gameObject
      modifies c.Animators()`sprite, c.Players()`body, c.Players()`sprite, c.Players()`animator
      ensures b == this
      ensures gameObject.components == old(gameObject.components) + [c]
      ensures c.Owner() == gameObject
      ensures c.AnimatorC? ==> (initialized <==> gameObject.GetComponent(SpriteKind).Some?)
      ensures c.AnimatorC? && initialized ==> c.animator.sprite == gameObject.GetComponent(SpriteKind).value.sprite
      ensures c.PlayerC? ==> (initialized <==> c.player.SiblingsPresent())
      ensures c.PlayerC? && initialized ==> c.player.Linked()
      ensures !c.AnimatorC? && !c.PlayerC? ==> initialized
    {
      initialized := gameObject.AddComponent(c);
      b := this;
    }

    method Build() returns (o: GameObject)
      ensures o == gameObject
    {
      o := gameObject;
    }
  }

  /** A bitmap drawn at its object's transform. Only what the game logic
      reads of it is modelled: the bitmap, its scale and the flip flags. */
  class Sprite {
    var gameObject: GameObject?
    var bitmap: Animations.Bitmap
    var scale: real
    var flipX: bool
    var flipY: bool

    constructor (bitmap: Animations.Bitmap, scale: real := 1.0, flipX: bool := false, flipY: bool := false)
      ensures gameObject == null && this.bitmap == bitmap && this.scale == scale
      ensures this.flipX == flipX && this.flipY == flipY
    {
      gameObject := null;
      this.bitmap := bitmap;
      this.scale := scale;
      this.flipX := flipX;
      this.flipY := flipY;
    }

    /** `size`: the bitmap's dimensions times the scale. */
    function Size(): (r: Vec2)
      reads this`bitmap, this`scale
      ensures scale == 1.0 ==> r == Vec2(bitmap.Width() as real, bitmap.Height() as real)
    {
      Vec2(bitmap.Width() as real, bitmap.Height() as real).Times(scale)
    }

    /** `origin`: the centre of the scaled bitmap, half of `size`. */
    function Origin(): (r: Vec2)
      reads this`bitmap, this`scale
      ensures r.Times(2.0) == Size()
    {
      Vec2(bitmap.Width() as real / 2.0, bitmap.Height() as real / 2.0).Times(scale)
    }
  }

  /** Plays an animation on the sibling sprite. */
  class Animator {
    var gameObject: GameObject?
    var sprite: Sprite?
    var animation: Animations.Animation?

    constructor ()
      ensures gameObject == null && sprite == null && animation == null
    {
      gameObject := null;
      sprite := null;
      animation := null;
    }

    /** The animation held, as a set (empty when there is none). */
    function Held(): set<Animations.Animation>
      reads this`animation
    {
      if animation == null then {} else {animation}
    }

    /** `initialize()`: finds the sibling sprite; fails when there is none. */
    method Initialize() returns (ok: bool)
      requires gameObject != null
      modifies this`sprite
      ensures ok <==> gameObject.GetComponent(SpriteKind).Some?
      ensures ok ==> sprite == gameObject.GetComponent(SpriteKind).value.sprite
      ensures !ok ==> sprite == old(sprite)
    {
      match gameObject.GetComponent(SpriteKind)
      case Some(c) =>
        sprite := c.sprite;
        ok := true;
      case None =>
        ok := false;
    }

    /** The `animation` setter: the animation held so far (if any) is reset
        to its first frame; then `value` is held. A new animation keeps its
        own state; assigning the one already held restarts it. */
    method SetAnimation(value: Animations.Animation?)
      modifies this`animation, Held()`frameIndex, Held()`timer
      ensures animation == value
      ensures old(animation) != null ==> old(animation).frameIndex == 0 && old(animation).timer == 0.0
      ensures value != null && value != old(animation) ==>
                value.frameIndex == old(value.frameIndex) && value.timer == old(value.timer)
    {
      if animation != null {
        animation.Reset();
      }
      animation := value;
    }

    /** `update(deltaTime)`: with an animation, advances it once and shows
        its current frame on the sprite; without one, does nothing. */
    method Update(deltaTime: real)
      requires animation != null ==> sprite != null && animation.Valid() && animation.OnSheet()
      modifies Held()`frameIndex, Held()`timer, (if sprite == null then {} else {sprite})`bitmap
      ensures animation == null && sprite != null ==> sprite.bitmap == old(sprite.bitmap)
      ensures animation != null ==>
                var a := animation;
                var t := Animations.Tick(old(a.frameIndex), old(a.timer), a.frameCount, deltaTime);
                a.frameIndex == t.frameIndex && a.timer == t.timer && a.Valid() &&
                Animations.FrameRect(a.frameIndex, a.rows, a.columns, a.frameWidth, a.frameHeight, a.firstFrameY).Some? &&
                sprite.bitmap == Animations.Region(a.bitmap, Animations.FrameRect(a.frameIndex, a.rows, a.columns, a.frameWidth, a.frameHeight, a.firstFrameY).value)
    {
      if animation != null {
        var _ := animation.Update(deltaTime);
        animation.HasFrame();
        var frame := animation.Frame();
        sprite.bitmap := frame.value;
      }
    }
  }

  /** What a collision callback does. Every callback the game registers
      sets its game mode's state to GAME_OVER. */
  datatype CollisionEvent = SetGameOver(mode: GameMode)

  /** The game modes a list of callbacks writes to. */
  function Targets(events: seq<CollisionEvent>): set<GameMode>
  {
    set i | 0 <= i < |events| :: events[i].mode
  }

  /** A collision shape: a circle or a rectangle centred on its object,
      with a mask of the layers it tests against and its own layer. */
  class CollisionShape {
    var gameObject: GameObject?
    const geometry: Collision.Geometry
    const layerMask: bv32
    const isLayer: bv32
    var onCollision: seq<CollisionEvent>

    constructor (geometry: Collision.Geometry, layerMask: bv32, isLayer: bv32 := 0)
      ensures gameObject == null && this.geometry == geometry
      ensures this.layerMask == layerMask && this.isLayer == isLayer && onCollision == []
    {
      gameObject := null;
      this.geometry := geometry;
      this.layerMask := layerMask;
      this.isLayer := isLayer;
      onCollision := [];
    }

    /** The shape as placed at its object's position. */
    function Placed(): Collision.Placed
      reads this`gameObject, gameObject`transform
      requires gameObject != null
    {
      Collision.Placed(geometry, layerMask, isLayer, gameObject.transform.position)
    }

    /** The shape's sides are not negative. */
    predicate WellFormed()
    {
      geometry.Rectangle? ==> geometry.width >= 0.0 && geometry.height >= 0.0
    }

    /** `collidesWith(shape)`: this shape's mask accepts the other's layer
        and the two shapes overlap. */
    function CollidesWith(other: CollisionShape): (r: bool)
      reads this`gameObject, gameObject`transform, other`gameObject, other.gameObject`transform
      requires gameObject != null && other.gameObject != null && WellFormed() && other.WellFormed()
      ensures r <==> Collision.MaskAccepts(layerMask, other.isLayer) && Collision.Touching(Placed(), other.Placed())
    {
      Collision.CollidesIffMaskAndTouching(Placed(), other.Placed());
      Collision.CollidesWith(Placed(), other.Placed())
    }

    /** `contains(point)`. */
    function Contains(point: Vec2): (r: bool)
      reads this`gameObject, gameObject`transform
      requires gameObject != null
      ensures geometry.Circle? ==> (r <==> Collision.WithinDistance(gameObject.transform.position, point, geometry.radius))
      ensures geometry.Rectangle? ==> (r <==> Collision.RectContains(Placed().Bounds(), point))
    {
      Collision.Contains(Placed(), point)
    }

    /** `onCollision.add(event)`. */
    method AddCallback(event: CollisionEvent)
      modifies this`onCollision
      ensures onCollision == old(onCollision) + [event]
    {
      onCollision := onCollision + [event];
    }

    /** `onCollision(obj)`: invokes every registered callback once, in
        registration order, with `obj`. `fired` lists the calls made. */
    method OnCollision(obj: GameObject) returns (ghost fired: seq<(CollisionEvent, GameObject)>)
      modifies Targets(onCollision)`gameState
      ensures |fired| == |onCollision|
      ensures forall i :: 0 <= i < |fired| ==> fired[i] == (onCollision[i], obj)
      ensures forall m :: m in Targets(onCollision) ==> m.gameState == GameOver
    {
      fired := [];
      var i := 0;
      while i < |onCollision|
        invariant 0 <= i <= |onCollision|
        invariant |fired| == i
        invariant forall j :: 0 <= j < i ==> fired[j] == (onCollision[j], obj)
        invariant forall j :: 0 <= j < i ==> onCollision[j].mode.gameState == GameOver
      {
        var event := onCollision[i];
        event.mode.gameState := GameOver;
        fired := fired + [(event, obj)];
        i := i + 1;
      }
    }
  }

  /** A rigid body moved by velocity, gravity and damping. */
  class PhysicsBody {
    var gameObject: GameObject?
    var velocity: Vec2
    var angleVelocity: real
    var useGravity: bool
    var useDampening: bool
    var mass: real

    constructor (velocity: Vec2 := ZERO, angleVelocity: real := 0.0, useGravity: bool := true,
                 useDampening: bool := true, mass: real := 1.0)
      ensures gameObject == null && this.velocity == velocity && this.angleVelocity == angleVelocity
      ensures this.useGravity == useGravity && this.useDampening == useDampening && this.mass == mass
    {
      gameObject := null;
      this.velocity := velocity;
      this.angleVelocity := angleVelocity;
      this.useGravity := useGravity;
      this.useDampening := useDampening;
      this.mass := mass;
    }

    /** `update(deltaTime)`: one step of `Motion.Step` as the source
        performs it, damped by the root-package `Game.timeScale`. Nothing
        writes that scale, so it stays 1.0 whatever the modes set. */
    method Update(deltaTime: real)
      requires gameObject != null
      modifies this`velocity, this`angleVelocity, gameObject`transform
      ensures var r := Motion.StepAsWritten(Motion.BodyState(old(gameObject.transform.position),
                                                             old(gameObject.transform.rotation),
                                                             old(velocity), old(angleVelocity)),
                                            useGravity, useDampening, deltaTime);
              gameObject.transform == Transform(r.position, r.rotation) &&
              velocity == r.velocity && angleVelocity == r.angleVelocity
    {
      ghost var r := Motion.StepAsWritten(Motion.BodyState(gameObject.transform.position, gameObject.transform.rotation,
                                                           velocity, angleVelocity),
                                          useGravity, useDampening, deltaTime);
      if useGravity {
        velocity := Motion.Gravitate(velocity, true, deltaTime);
      }
      if useDampening {
        velocity := Motion.DampVelocity(velocity, ROOT_TIME_SCALE);
        angleVelocity := Motion.DampAngle(angleVelocity, ROOT_TIME_SCALE);
      }
      assert velocity == r.velocity && angleVelocity == r.angleVelocity;
      gameObject.transform := gameObject.transform.(position := gameObject.transform.position.Plus(velocity.Times(deltaTime)));
      gameObject.transform := gameObject.transform.(rotation := gameObject.transform.rotation + angleVelocity * deltaTime);
      assert gameObject.transform == Transform(r.position, r.rotation);
    }

    /** `addForce(force)`: an impulse of force / mass; nothing else changes. */
    method AddForce(force: Vec2)
      requires mass != 0.0
      modifies this`velocity
      ensures velocity == Motion.Impulse(old(velocity), force, mass)
    {
      velocity := velocity.Plus(force.Div(mass));
    }

    /** `addAngleForce(amount)`: spin gains `amount`; nothing else changes. */
    method AddAngleForce(amount: real)
      modifies this`angleVelocity
      ensures angleVelocity - old(angleVelocity) == amount
    {
      angleVelocity := angleVelocity + amount;
    }
  }

  /** The player: ammunition, the shot, the reload cooldown and the bounce
      at the screen edges. `body`, `sprite` and `animator` are the siblings
      found by `initialize` (null before). */
  class PlayerBehaviour {
    var gameObject: GameObject?
    var maxAmmo: int
    const shootForce: real
    const quickshotModifier: real
    const shootAnimation: Animations.Animation
    var remainingAmmo: int
    const reloadPenaltyTime: real
    var body: PhysicsBody?
    var sprite: Sprite?
    var animator: Animator?
    var timer: real

    constructor (maxAmmo: int, shootForce: real := 900.0, quickshotModifier: real := 1.8,
                 shootAnimation: Animations.Animation, remainingAmmo: int := maxAmmo,
                 reloadPenaltyTime: real := 0.6)
      ensures gameObject == null && body == null && sprite == null && animator == null
      ensures this.maxAmmo == maxAmmo && this.shootForce == shootForce && this.quickshotModifier == quickshotModifier
      ensures this.shootAnimation == shootAnimation && this.remainingAmmo == remainingAmmo
      ensures this.reloadPenaltyTime == reloadPenaltyTime && timer == 0.0
    {
      gameObject := null;
      body := null;
      sprite := null;
      animator := null;
      this.maxAmmo := maxAmmo;
      this.shootForce := shootForce;
      this.quickshotModifier := quickshotModifier;
      this.shootAnimation := shootAnimation;
      this.remainingAmmo := remainingAmmo;
      this.reloadPenaltyTime := reloadPenaltyTime;
      timer := 0.0;
    }

    /** The owning object has a body, a sprite and an animator. */
    predicate SiblingsPresent()
      reads this`gameObject, (if gameObject == null then {} else {gameObject})`components
    {
      gameObject != null &&
      gameObject.GetComponent(BodyKind).Some? &&
      gameObject.GetComponent(SpriteKind).Some? &&
      gameObject.GetComponent(AnimatorKind).Some?
    }

    /** `body`, `sprite` and `animator` are the owner's first components of
        their kinds. */
    predicate Linked()
      reads this`gameObject, (if gameObject == null then {} else {gameObject})`components
      reads this`body, this`sprite, this`animator
    {
      SiblingsPresent() &&
      body == gameObject.GetComponent(BodyKind).value.body &&
      sprite == gameObject.GetComponent(SpriteKind).value.sprite &&
      animator == gameObject.GetComponent(AnimatorKind).value.animator
    }

    /** The references `initialize` sets are there (the `lateinit` fields
        have been assigned). */
    predicate Initialized()
      reads this`gameObject, this`body, this`sprite, this`animator
    {
      gameObject != null && body != null && sprite != null && animator != null
    }

    /** `initialize()`: looks up the three siblings in turn; `ok` is false
        where a missing one makes the source throw. */
    method Initialize() returns (ok: bool)
      requires gameObject != null
      modifies this`body, this`sprite, this`animator
      ensures ok <==> SiblingsPresent()
      ensures ok ==> Linked() && Initialized()
    {
      ok := false;
      match gameObject.GetComponent(BodyKind) {
        case None => return;
        case Some(c) => body := c.body;
      }
      match gameObject.GetComponent(SpriteKind) {
        case None => return;
        case Some(c) => sprite := c.sprite;
      }
      match gameObject.GetComponent(AnimatorKind) {
        case None => return;
        case Some(c) => animator := c.animator;
      }
      ok := true;
    }

    /** `cooldown`. */
    predicate Cooldown()
      reads this`timer
    {
      PlayerRules.Cooldown(timer)
    }

    /** The magnitude of a shot's impulse: `shootForce`, times
        `quickshotModifier` for a quick shot. */
    function ShotMagnitude(quickShot: bool): (r: real)
      ensures !quickShot ==> r == shootForce
    {
      PlayerRules.ShotMagnitude(shootForce, quickshotModifier, quickShot)
    }

    /** The impulse of a shot: opposite the facing (`direction` of the
        object's rotation), as strong as `ShotMagnitude` says. */
    function ShotKick(quickShot: bool, direction: real -> Vec2): Vec2
      reads this`gameObject, (if gameObject == null then {} else {gameObject})`transform
      requires gameObject != null
    {
      PlayerRules.ShotImpulse(direction(gameObject.transform.rotation), ShotMagnitude(quickShot))
    }

    /** After one shot attempt from `rounds` rounds, a body moving at `v0`
        and spinning at `s0`: a round is spent if there was one, and the
        body is kicked opposite the facing with the spin set by the
        sprite's flip when the round was there and no cooldown ran. */
    ghost predicate ShotTaken(quickShot: bool, rounds: int, v0: Vec2, s0: real, direction: real -> Vec2)
      reads this, if body == null then {} else {body}
      reads (if gameObject == null then {} else {gameObject})`transform
      reads (if sprite == null then {} else {sprite})`flipY
    {
      Initialized() && body.mass != 0.0 &&
      remainingAmmo == PlayerRules.AmmoAfterShot(rounds, timer) &&
      Kicked(PlayerRules.CanShoot(rounds, timer), v0, s0, body.velocity, body.angleVelocity,
             ShotKick(quickShot, direction), body.mass, PlayerRules.SpinAfterShot(sprite.flipY))
    }

    /** `shoot(quickShot)`: with a round left and no cooldown, pushes the
        body opposite its facing (`direction` of the rotation stands for
        (cos, sin)), sets the spin by the sprite's flip, spends a round and
        starts the shot animation; otherwise changes nothing. `fired` tells
        which. */
    method Shoot(quickShot: bool, direction: real -> Vec2) returns (fired: bool)
      requires Initialized() && body.mass != 0.0
      modifies body`velocity, body`angleVelocity, this`remainingAmmo
      modifies animator`animation, animator.Held()`frameIndex, animator.Held()`timer
      ensures fired <==> PlayerRules.CanShoot(old(remainingAmmo), timer)
      ensures remainingAmmo == PlayerRules.AmmoAfterShot(old(remainingAmmo), timer)
      ensures fired ==>
                body.velocity == Motion.Impulse(old(body.velocity),
                                                ShotKick(quickShot, direction),
                                                body.mass) &&
                body.angleVelocity == PlayerRules.SpinAfterShot(sprite.flipY) &&
                animator.animation == shootAnimation
      ensures fired && old(animator.animation) != null ==>
                old(animator.animation).frameIndex == 0 && old(animator.animation).timer == 0.0
      ensures !fired ==> body.velocity == old(body.velocity) && body.angleVelocity == old(body.angleVelocity) &&
                         animator.animation == old(animator.animation)
      ensures !fired && animator.animation != null ==>
                animator.animation.frameIndex == old(animator.animation.frameIndex) &&
                animator.animation.timer == old(animator.animation.timer)
    {
      if remainingAmmo < 1 || PlayerRules.Cooldown(timer) {
        return false;
      }
      Fire(quickShot, direction);
      fired := true;
    }

    /** The part of `shoot` past its guard: kick, one round less, and the
        shooting animation. */
    method Fire(quickShot: bool, direction: real -> Vec2)
      requires Initialized() && body.mass != 0.0
      modifies body`velocity, body`angleVelocity, this`remainingAmmo
      modifies animator`animation, animator.Held()`frameIndex, animator.Held()`timer
      ensures remainingAmmo == old(remainingAmmo) - 1
      ensures body.velocity == Motion.Impulse(old(body.velocity),
                                              ShotKick(quickShot, direction),
                                              body.mass)
      ensures body.angleVelocity == PlayerRules.SpinAfterShot(sprite.flipY)
      ensures animator.animation == shootAnimation
      ensures old(animator.animation) != null ==>
                old(animator.animation).frameIndex == 0 && old(animator.animation).timer == 0.0
    {
      Kick(quickShot, direction);
      remainingAmmo := remainingAmmo - 1;
      animator.SetAnimation(shootAnimation);
    }

    /** The first two statements of a shot: the force
        -direction * shootForce (* quickshotModifier) on the body, and the
        spin by the sprite's flip. */
    method Kick(quickShot: bool, direction: real -> Vec2)
      requires Initialized() && body.mass != 0.0
      modifies body`velocity, body`angleVelocity
      ensures body.velocity == Motion.Impulse(old(body.velocity),
                                              ShotKick(quickShot, direction),
                                              body.mass)
      ensures body.angleVelocity == PlayerRules.SpinAfterShot(sprite.flipY)
    {
      var dir := direction(gameObject.transform.rotation);
      var multiplier := if quickShot then quickshotModifier else 1.0;
      var force := dir.Neg().Times(shootForce).Times(multiplier);
      PlayerRules.ScaledShotImpulse(dir, shootForce, multiplier);
      assert ShotMagnitude(quickShot) == shootForce * multiplier;
      assert force == PlayerRules.ShotImpulse(dir, ShotMagnitude(quickShot));
      body.AddForce(force);
      body.angleVelocity := 4.0 * PlayerRules.PI * (if sprite.flipY then 1.0 else -1.0);
    }

    /** `reload()`: a full magazine, and the penalty on the timer. */
    method Reload()
      modifies this`remainingAmmo, this`timer
      ensures remainingAmmo == maxAmmo && timer == reloadPenaltyTime
      ensures reloadPenaltyTime > 0.0 ==> Cooldown() && !PlayerRules.CanShoot(remainingAmmo, timer)
    {
      remainingAmmo := maxAmmo;
      timer := reloadPenaltyTime;
    }

    /** `update(deltaTime)`: counts the cooldown down, faces the sprite by
        the screen half, and clamps x into the screen with a bounce. */
    method Update(deltaTime: real, globals: Game.Globals)
      requires gameObject != null && body != null && sprite != null
      modifies this`timer, sprite`flipY, gameObject`transform, body`velocity, body`angleVelocity
      ensures timer == PlayerRules.CoolDown(old(timer), deltaTime)
      ensures sprite.flipY == PlayerRules.FacesLeftHalf(old(gameObject.transform.position.x), globals.screenWidth)
      ensures var c := PlayerRules.ClampToScreen(old(gameObject.transform.position.x), globals.screenWidth, sprite.bitmap.Width());
              gameObject.transform == old(gameObject.transform).(position := Vec2(c.x, old(gameObject.transform.position.y))) &&
              (c.bounced ==> body.velocity == PlayerRules.BounceVelocity(old(body.velocity)) &&
                             body.angleVelocity == PlayerRules.BounceSpin(old(body.angleVelocity))) &&
              (!c.bounced ==> body.velocity == old(body.velocity) && body.angleVelocity == old(body.angleVelocity))
    {
      if timer > 0.0 {
        timer := timer - deltaTime;
      }
      sprite.flipY := gameObject.transform.position.x < globals.screenWidth as real / 2.0;
      var bounce := false;
      var width := sprite.bitmap.Width();
      var position := gameObject.transform.position;
      if position.x > (globals.screenWidth - width) as real {
        gameObject.transform := gameObject.transform.(position := position.(x := (globals.screenWidth - width) as real));
        bounce := true;
      } else if position.x < width as real {
        gameObject.transform := gameObject.transform.(position := position.(x := width as real));
        bounce := true;
      }
      if bounce {
        body.velocity := body.velocity.(y := body.velocity.y * 0.7);
        body.velocity := body.velocity.(x := body.velocity.x * -0.5);
        body.angleVelocity := body.angleVelocity * -0.5;
      }
    }
  }

  /** The rising lava. `player` is the object whose transform the source
      shares as `playerTransform`. */
  class LavaBehaviour {
    var gameObject: GameObject?
    const lavaMinSpeed: real
    const player: GameObject
    const waveSpeed: real
    var xOffset: real

    constructor (lavaMinSpeed: real, player: GameObject, waveSpeed: real := LavaRules.WAVE_SPEED)
      ensures gameObject == null && this.lavaMinSpeed == lavaMinSpeed && this.player == player
      ensures this.waveSpeed == waveSpeed && xOffset == 0.0
    {
      gameObject := null;
      this.lavaMinSpeed := lavaMinSpeed;
      this.player := player;
      this.waveSpeed := waveSpeed;
      xOffset := 0.0;
    }

    /** `update(deltaTime)`: rises by `speed` (taken before the move) and
        advances the wave as `updateOffset` does. */
    method Update(deltaTime: real)
      requires gameObject != null
      modifies gameObject`transform, this`xOffset
      ensures gameObject.transform ==
                old(gameObject.transform).(position := LavaRules.Rise(old(gameObject.transform.position),
                  LavaRules.Speed(old(gameObject.transform.position.y), old(player.transform.position.y), lavaMinSpeed),
                  deltaTime))
      ensures xOffset == LavaRules.AdvanceWave(old(xOffset), waveSpeed, deltaTime)
    {
      var speed := LavaRules.Speed(gameObject.transform.position.y, player.transform.position.y, lavaMinSpeed);
      gameObject.transform := gameObject.transform.(position := gameObject.transform.position.Plus(UP.Times(speed).Times(deltaTime)));
      UpdateOffset(deltaTime);
    }

    /** `updateOffset(deltaTime)`: only the wave offset changes. */
    method UpdateOffset(deltaTime: real)
      modifies this`xOffset
      ensures xOffset == LavaRules.AdvanceWave(old(xOffset), waveSpeed, deltaTime)
    {
      xOffset := xOffset + waveSpeed * deltaTime;
    }
  }

  /** `pipe` is a pipe as `createPipes` builds it: not destroyed, at
      `position` with no rotation, a sprite and then a rectangle the size of
      `bitmap` on the ENEMY layer that tests against no layer. */
  ghost predicate IsPipe(pipe: GameObject, bitmap: Animations.Bitmap, position: Vec2)
    reads pipe`components, pipe`transform, pipe`destroyed
  {
    !pipe.destroyed && pipe.transform == Transform(position, 0.0) &&
    |pipe.components| == 2 && pipe.components[0].SpriteC? && pipe.components[1].ShapeC? &&
    pipe.components[1].shape.geometry == Collision.Rectangle(bitmap.Width() as real, bitmap.Height() as real) &&
    pipe.components[1].shape.layerMask == 0 && pipe.components[1].shape.isLayer == Physics.ENEMY
  }

  /** Spawns, scrolls and retires the pipes of the side-scrolling mode. */
  class PipeSpawner {
    var gameObject: GameObject?
    const flappyMode: GameMode
    const spawnDistance: real
    const pipeSpeed: real
    const pipeSprite: Animations.Bitmap
    const spaceTopBottom: real
    var pipes: seq<GameObject>
    var totalMoved: real

    constructor (flappyMode: GameMode, spawnDistance: real, pipeSpeed: real, pipeSprite: Animations.Bitmap,
                 spaceTopBottom: real := PipeRules.SPACE_TOP_BOTTOM)
      ensures gameObject == null && this.flappyMode == flappyMode && this.spawnDistance == spawnDistance
      ensures this.pipeSpeed == pipeSpeed && this.pipeSprite == pipeSprite && this.spaceTopBottom == spaceTopBottom
      ensures pipes == [] && totalMoved == spawnDistance
    {
      gameObject := null;
      this.flappyMode := flappyMode;
      this.spawnDistance := spawnDistance;
      this.pipeSpeed := pipeSpeed;
      this.pipeSprite := pipeSprite;
      this.spaceTopBottom := spaceTopBottom;
      pipes := [];
      totalMoved := spawnDistance;
    }

    /** `update(deltaTime)`: scrolls every pipe and flags those past the
        left edge, counts the distance, drops the flagged pipes scoring one
        point each, and spawns a pair once the distance exceeds
        `spawnDistance` plus a pipe width. `added` is the pair spawned, if
        any; `w2` the world grown by it. */
    method Update(deltaTime: real, globals: Game.Globals, rnd: real, ghost w: World)
      returns (ghost added: seq<GameObject>, ghost w2: World)
      requires Wired(w) && Live(w) && this in w.spawners
      requires 0.0 <= rnd < 1.0
      modifies (set p | p in pipes)`transform, (set p | p in pipes)`destroyed, this`pipes, this`totalMoved
      modifies flappyMode`gameObjects, flappyMode`score
      ensures Wired(w2) && Live(w2) && w.GrowsTo(w2)
      ensures fresh(w2.objects - w.objects)
      ensures forall p :: p in old(pipes) ==>
                p.transform == old(p.transform).(position := PipeRules.Scroll(old(p.transform.position), pipeSpeed, deltaTime))
      ensures forall p :: p in old(pipes) ==>
                (p.destroyed <==> old(p.destroyed) || PipeRules.OffScreen(p.transform.position.x, pipeSprite.Width()))
      ensures pipes == Survivors(old(pipes)) + added
      ensures flappyMode.score == old(flappyMode.score) + (|old(pipes)| - |Survivors(old(pipes))|)
      ensures flappyMode.gameObjects == old(flappyMode.gameObjects) + added
      ensures forall o :: o in added ==> o !in w.objects
      ensures var moved := old(totalMoved) + pipeSpeed * deltaTime;
              if moved > spawnDistance + pipeSprite.Width() as real then
                totalMoved == 0.0 && |added| == 2 &&
                var offset := PipeRules.GapCentre(globals.screenHeight, rnd);
                IsPipe(added[0], pipeSprite, PipeRules.TopPipePosition(globals.screenWidth, offset, spaceTopBottom,
                                                                      pipeSprite.Width(), pipeSprite.Height())) &&
                IsPipe(added[1], pipeSprite, PipeRules.BottomPipePosition(globals.screenWidth, offset, spaceTopBottom,
                                                                         pipeSprite.Width(), pipeSprite.Height()))
              else
                totalMoved == moved && added == [] && w2 == w
    {
      Advance(deltaTime, w);
      added, w2 := MaybeSpawn(globals, rnd, w);
    }

    /** The spawn test at the end of `update`: once the distance exceeds
        `spawnDistance` plus a pipe width, it is reset and a pair spawns. */
    method MaybeSpawn(globals: Game.Globals, rnd: real, ghost w: World)
      returns (ghost added: seq<GameObject>, ghost w2: World)
      requires Wired(w) && Live(w) && this in w.spawners
      requires 0.0 <= rnd < 1.0
      modifies this`pipes, this`totalMoved, flappyMode`gameObjects
      ensures Wired(w2) && Live(w2) && w.GrowsTo(w2)
      ensures fresh(w2.objects - w.objects)
      ensures pipes == old(pipes) + added
      ensures flappyMode.gameObjects == old(flappyMode.gameObjects) + added
      ensures forall o :: o in added ==> o !in w.objects
      ensures if old(totalMoved) > spawnDistance + pipeSprite.Width() as real then
                totalMoved == 0.0 && |added| == 2 &&
                var offset := PipeRules.GapCentre(globals.screenHeight, rnd);
                IsPipe(added[0], pipeSprite, PipeRules.TopPipePosition(globals.screenWidth, offset, spaceTopBottom,
                                                                      pipeSprite.Width(), pipeSprite.Height())) &&
                IsPipe(added[1], pipeSprite, PipeRules.BottomPipePosition(globals.screenWidth, offset, spaceTopBottom,
                                                                         pipeSprite.Width(), pipeSprite.Height()))
              else
                totalMoved == old(totalMoved) && added == [] && w2 == w
    {
      if totalMoved > spawnDistance + pipeSprite.Width() as real {
        // createPipes does not read totalMoved: resetting it first ends in
        // the same state and leaves the world facts of CreatePipes as they are
        totalMoved := 0.0;
        var top, bottom;
        top, bottom, w2 := CreatePipes(globals, rnd, w);
        added := [top, bottom];
      } else {
        added := [];
        w2 := w;
      }
    }

    /** The part of `update` before the spawn test: the pipes scroll, the
        distance grows and the flagged pipes are dropped and scored. The
        world keeps its wiring: the surviving pipes are still distinct
        world objects. */
    method Advance(deltaTime: real, ghost w: World)
      requires Wired(w) && Live(w) && this in w.spawners
      modifies (set p | p in pipes)`transform, (set p | p in pipes)`destroyed, this`pipes, this`totalMoved
      modifies flappyMode`score
      ensures Wired(w) && Live(w)
      ensures forall p :: p in old(pipes) ==>
                p.transform == old(p.transform).(position := PipeRules.Scroll(old(p.transform.position), pipeSpeed, deltaTime))
      ensures forall p :: p in old(pipes) ==>
                (p.destroyed <==> old(p.destroyed) || PipeRules.OffScreen(p.transform.position.x, pipeSprite.Width()))
      ensures pipes == Survivors(old(pipes))
      ensures flappyMode.score == old(flappyMode.score) + (|old(pipes)| - |Survivors(old(pipes))|)
      ensures totalMoved == old(totalMoved) + pipeSpeed * deltaTime
    {
      Scroll(deltaTime, w);
      Prune(w);
    }

    /** Moving the pipes and counting the distance; neither touches what
        the world's invariants read. */
    method Scroll(deltaTime: real, ghost w: World)
      requires Wired(w) && Live(w) && this in w.spawners
      modifies (set p | p in pipes)`transform, (set p | p in pipes)`destroyed, this`totalMoved
      ensures Wired(w) && Live(w)
      ensures forall p :: p in pipes ==>
                p.transform == old(p.transform).(position := PipeRules.Scroll(old(p.transform.position), pipeSpeed, deltaTime))
      ensures forall p :: p in pipes ==>
                (p.destroyed <==> old(p.destroyed) || PipeRules.OffScreen(p.transform.position.x, pipeSprite.Width()))
      ensures totalMoved == old(totalMoved) + pipeSpeed * deltaTime
    {
      MovePipes(deltaTime);
      totalMoved := totalMoved + pipeSpeed * deltaTime;
    }

    /** Removing the flagged pipes keeps the spawner's list distinct and
        within the world. */
    method Prune(ghost w: World)
      requires Wired(w) && Live(w) && this in w.spawners
      modifies this`pipes, flappyMode`score
      ensures Wired(w) && Live(w)
      ensures pipes == Survivors(old(pipes))
      ensures flappyMode.score == old(flappyMode.score) + (|old(pipes)| - |pipes|)
    {
      RemoveDestroyed();
      SurvivorsDistinct(old(pipes));
      assert forall s :: s in w.spawners && s != this ==> s.pipes == old(s.pipes);
    }

    /** The first loop of `update`: every pipe moves left by
        pipeSpeed * deltaTime and is flagged once off screen. */
    method MovePipes(deltaTime: real)
      requires Distinct(pipes)
      modifies (set p | p in pipes)`transform, (set p | p in pipes)`destroyed
      ensures forall p :: p in pipes ==>
                p.transform == old(p.transform).(position := PipeRules.Scroll(old(p.transform.position), pipeSpeed, deltaTime))
      ensures forall p :: p in pipes ==>
                (p.destroyed <==> old(p.destroyed) || PipeRules.OffScreen(p.transform.position.x, pipeSprite.Width()))
    {
      var i := 0;
      while i < |pipes|
        invariant 0 <= i <= |pipes|
        invariant forall j :: 0 <= j < i ==>
                    pipes[j].transform == old(pipes[j].transform).(position := PipeRules.Scroll(old(pipes[j].transform.position), pipeSpeed, deltaTime)) &&
                    (pipes[j].destroyed <==> old(pipes[j].destroyed) || PipeRules.OffScreen(pipes[j].transform.position.x, pipeSprite.Width()))
        invariant forall j :: i <= j < |pipes| ==>
                    pipes[j].transform == old(pipes[j].transform) && pipes[j].destroyed == old(pipes[j].destroyed)
      {
        var pipe := pipes[i];
        pipe.transform := pipe.transform.(position := pipe.transform.position.Plus(LEFT.Times(pipeSpeed).Times(deltaTime)));
        if pipe.transform.position.x < -(pipeSprite.Width() as real) {
          pipe.destroyed := true;
        }
        i := i + 1;
      }
    }

    /** The reverse loop of `update`: each flagged pipe is removed from the
        list and scores a point for the mode. */
    method RemoveDestroyed()
      requires Distinct(pipes)
      modifies this`pipes, flappyMode`score
      ensures pipes == Survivors(old(pipes))
      ensures flappyMode.score == old(flappyMode.score) + (|old(pipes)| - |pipes|)
    {
      ghost var original := pipes;
      var i := |pipes| - 1;
      while i >= 0
        invariant -1 <= i < |original|
        invariant pipes == original[..i + 1] + Survivors(original[i + 1..])
        invariant flappyMode.score == old(flappyMode.score) + (|original| - |pipes|)
      {
        CompactStep(original, i);
        var pipe := pipes[i];
        if pipe.destroyed {
          pipes := RemoveFirst(pipes, pipe);
          flappyMode.score := flappyMode.score + 1;
        }
        i := i - 1;
      }
      assert original[0..] == original;
    }

    /** `createPipes()`: a top and a bottom pipe around a random gap centre
        (`rnd` stands for `Random.nextFloat()`), appended to `pipes` and to
        the mode's objects. */
    method CreatePipes(globals: Game.Globals, rnd: real, ghost w: World)
      returns (top: GameObject, bottom: GameObject, ghost w2: World)
      requires Wired(w) && Live(w) && this in w.spawners
      requires 0.0 <= rnd < 1.0
      modifies this`pipes, flappyMode`gameObjects
      ensures fresh(top) && fresh(bottom) && top != bottom
      ensures pipes == old(pipes) + [top, bottom]
      ensures flappyMode.gameObjects == old(flappyMode.gameObjects) + [top, bottom]
      ensures var offset := PipeRules.GapCentre(globals.screenHeight, rnd);
              IsPipe(top, pipeSprite, PipeRules.TopPipePosition(globals.screenWidth, offset, spaceTopBottom,
                                                               pipeSprite.Width(), pipeSprite.Height())) &&
              IsPipe(bottom, pipeSprite, PipeRules.BottomPipePosition(globals.screenWidth, offset, spaceTopBottom,
                                                                     pipeSprite.Width(), pipeSprite.Height()))
      ensures top.components[0].sprite.flipY && !bottom.components[0].sprite.flipY
      ensures Wired(w2)
      ensures Live(w2)
      ensures w.GrowsTo(w2) && w2.objects == w.objects + {top, bottom}
    {
      var topSprite, topShape, bottomSprite, bottomShape;
      top, topSprite, topShape, bottom, bottomSprite, bottomShape := BuildPipes(globals, rnd);
      w2 := AddPipes(top, topSprite, topShape, bottom, bottomSprite, bottomShape, w);
    }

    /** The two `run` blocks of `createPipes` without their `add` calls:
        building touches only the new objects, so both pipes can be built
        before either is added to the lists. */
    method BuildPipes(globals: Game.Globals, rnd: real)
      returns (top: GameObject, topSprite: Sprite, topShape: CollisionShape,
               bottom: GameObject, bottomSprite: Sprite, bottomShape: CollisionShape)
      requires 0.0 <= rnd < 1.0
      ensures fresh(top) && fresh(bottom) && top != bottom
      ensures var offset := PipeRules.GapCentre(globals.screenHeight, rnd);
              IsPipe(top, pipeSprite, PipeRules.TopPipePosition(globals.screenWidth, offset, spaceTopBottom,
                                                               pipeSprite.Width(), pipeSprite.Height())) &&
              IsPipe(bottom, pipeSprite, PipeRules.BottomPipePosition(globals.screenWidth, offset, spaceTopBottom,
                                                                     pipeSprite.Width(), pipeSprite.Height()))
      ensures topSprite.flipY && !bottomSprite.flipY
      ensures top.components == [SpriteC(topSprite), ShapeC(topShape)]
      ensures topShape.gameObject == top && topShape.onCollision == []
      ensures bottom.components == [SpriteC(bottomSprite), ShapeC(bottomShape)]
      ensures bottomShape.gameObject == bottom && bottomShape.onCollision == []
    {
      var offset := PipeRules.GapCentre(globals.screenHeight, rnd);
      top, topSprite, topShape := NewPipe("Pipe top", true,
        PipeRules.TopPipePosition(globals.screenWidth, offset, spaceTopBottom, pipeSprite.Width(), pipeSprite.Height()));
      bottom, bottomSprite, bottomShape := NewPipe("Pipe bottom", false,
        PipeRules.BottomPipePosition(globals.screenWidth, offset, spaceTopBottom, pipeSprite.Width(), pipeSprite.Height()));
    }

    /** The `pipes.add` and `flappyMode.addGameObject` calls of both `run`
        blocks: the world grows by both pipes, with their sprites and
        shapes, and stays wired, both lists still free of repetition. */
    method AddPipes(top: GameObject, topSprite: Sprite, topShape: CollisionShape,
                    bottom: GameObject, bottomSprite: Sprite, bottomShape: CollisionShape, ghost w: World)
      returns (ghost w2: World)
      requires Wired(w) && Live(w) && this in w.spawners
      requires top !in w.objects && bottom !in w.objects && top != bottom
      requires top.components == [SpriteC(topSprite), ShapeC(topShape)]
      requires topShape.gameObject == top && topShape.WellFormed() && topShape.onCollision == []
      requires bottom.components == [SpriteC(bottomSprite), ShapeC(bottomShape)]
      requires bottomShape.gameObject == bottom && bottomShape.WellFormed() && bottomShape.onCollision == []
      modifies this`pipes, flappyMode`gameObjects
      ensures pipes == old(pipes) + [top, bottom]
      ensures flappyMode.gameObjects == old(flappyMode.gameObjects) + [top, bottom]
      ensures w.GrowsTo(w2) && w2.objects == w.objects + {top, bottom}
      ensures Wired(w2)
      ensures Live(w2)
    {
      pipes := pipes + [top, bottom];
      flappyMode.gameObjects := flappyMode.gameObjects + [top, bottom];
      WiredWithPipes(w, top, topSprite, topShape, bottom, bottomSprite, bottomShape);
      w2 := WithPipe(WithPipe(w, top, topSprite, topShape), bottom, bottomSprite, bottomShape);
      forall s | s in w2.spawners
        ensures Distinct(s.pipes) && forall p :: p in s.pipes ==> p in w2.objects
      {
        if s == this {
          DistinctAppendFresh(old(pipes), [top, bottom], w.objects);
        } else {
          assert s.pipes == old(s.pipes);
        }
      }
      forall m | m in w2.modes
        ensures Distinct(m.gameObjects) && forall o :: o in m.gameObjects ==> o in w2.objects
      {
        if m == flappyMode {
          DistinctAppendFresh(old(flappyMode.gameObjects), [top, bottom], w.objects);
        } else {
          assert m.gameObjects == old(m.gameObjects);
        }
      }
    }

    /** One `run` block of `createPipes`: the sprite (flipped for the top
        pipe), the rectangle (sprite width by twice the origin's height for
        the top pipe, the sprite's size for the bottom one) and the object. */
    method NewPipe(name: string, isTop: bool, position: Vec2)
      returns (pipe: GameObject, sprite: Sprite, shape: CollisionShape)
      ensures fresh(pipe) && IsPipe(pipe, pipeSprite, position) && pipe.name == name && pipe.drawingLayer == Middle
      ensures pipe.components == [SpriteC(sprite), ShapeC(shape)]
      ensures sprite.gameObject == pipe && sprite.bitmap == pipeSprite && sprite.scale == 1.0 && sprite.flipY == isTop
      ensures shape.gameObject == pipe && shape.onCollision == []
    {
      sprite := new Sprite(pipeSprite);
      var size;
      if isTop {
        sprite.flipY := true;
        size := PipeRules.TopPipeSize(pipeSprite.Width(), pipeSprite.Height());
      } else {
        size := PipeRules.BottomPipeSize(pipeSprite.Width(), pipeSprite.Height());
      }
      shape := new CollisionShape(Collision.Rectangle(size.0, size.1), 0, Physics.ENEMY);
      pipe := AssemblePipe(name, sprite, shape, position);
    }

    /** The builder chain of a `run` block: an object on the middle layer
        holding the sprite and then the shape, at `position`. */
    method AssemblePipe(name: string, sprite: Sprite, shape: CollisionShape, position: Vec2) returns (pipe: GameObject)
      modifies sprite`gameObject, shape`gameObject
      ensures fresh(pipe) && pipe.name == name && pipe.drawingLayer == Middle
      ensures pipe.components == [SpriteC(sprite), ShapeC(shape)] && !pipe.destroyed
      ensures pipe.transform == Transform(position, 0.0)
      ensures sprite.gameObject == pipe && shape.gameObject == pipe
    {
      var builder := new Builder(name);
      var _, _ := builder.WithComponent(SpriteC(sprite));
      var _, _ := builder.WithComponent(ShapeC(shape));
      var _ := builder.WithTransform(position := position);
      pipe := builder.Build();
    }
  }

  /** The side-scrolling background: the source image scaled to the
      screen height, scrolled left and repeated across the screen. */
  class SeamlessBackground {
    var gameObject: GameObject?
    const backgroundImage: Animations.Bitmap
    const backgroundSpeed: real
    var backgroundX: real

    /** Scales `srcBitmap` so that it fills the screen vertically. */
    constructor (srcBitmap: Animations.Bitmap, backgroundSpeed: real, globals: Game.Globals)
      requires srcBitmap.Height() != 0
      ensures gameObject == null && this.backgroundSpeed == backgroundSpeed && backgroundX == 0.0
      ensures backgroundImage ==
                Animations.Resized(srcBitmap, BackgroundRules.ScaledWidth(srcBitmap.Width(), srcBitmap.Height(), globals.screenHeight),
                                   globals.screenHeight)
      ensures backgroundImage.Height() == globals.screenHeight
    {
      var scale := globals.screenHeight as real / srcBitmap.Height() as real;
      var width := srcBitmap.Width() as real * scale;
      var height := srcBitmap.Height() as real * scale;
      assert height == globals.screenHeight as real;
      gameObject := null;
      backgroundImage := Animations.Resized(srcBitmap, BackgroundRules.Truncate(width), BackgroundRules.Truncate(height));
      this.backgroundSpeed := backgroundSpeed;
      backgroundX := 0.0;
    }

    /** `update(deltaTime)`. */
    method Update(deltaTime: real)
      modifies this`backgroundX
      ensures backgroundX == BackgroundRules.Scroll(old(backgroundX), deltaTime, backgroundSpeed, backgroundImage.Width())
    {
      backgroundX := backgroundX - deltaTime * backgroundSpeed;
      if backgroundX < -(backgroundImage.Width() as real) {
        backgroundX := 0.0;
      }
    }

    /** The x positions at which `draw` puts the image; none when the
        image has no width, where the source's stepped range throws. */
    function TilePositions(screenWidth: int): (r: Option<seq<int>>)
      reads this`backgroundX
      ensures r.None? <==> backgroundImage.Width() <= 0
      ensures r.Some? ==> forall i :: 0 <= i < |r.value| ==>
                r.value[i] == BackgroundRules.Round(backgroundX) + i * backgroundImage.Width() && r.value[i] < screenWidth
      ensures r.Some? && -(backgroundImage.Width() as real) <= backgroundX <= 0.0 && screenWidth > 0 ==>
                |r.value| > 0 && r.value[0] <= 0 && r.value[|r.value| - 1] + backgroundImage.Width() >= screenWidth
    {
      if backgroundImage.Width() <= 0 then None
      else
        var start := BackgroundRules.Round(backgroundX);
        BackgroundRules.TilesCoverScreen(start, screenWidth, backgroundImage.Width());
        Some(BackgroundRules.Tiles(start, screenWidth, backgroundImage.Width()))
    }
  }

  /** The state every game mode shares: the run flag, the score, the time
      of the last frame, the game state and the objects of the scene. */
  class GameMode {
    var running: bool
    var score: int
    var prevFrameTime: int
    var gameState: GameState
    var gameObjects: seq<GameObject>

    /** Records the display size in the game's globals. */
    constructor (globals: Game.Globals, widthPixels: int, heightPixels: int)
      modifies globals`screenWidth, globals`screenHeight
      ensures globals.screenWidth == widthPixels && globals.screenHeight == heightPixels
      ensures !running && score == 0 && prevFrameTime == -1 && gameState == Paused && gameObjects == []
    {
      running := false;
      score := 0;
      prevFrameTime := -1;
      gameState := Paused;
      gameObjects := [];
      new;
      globals.screenWidth := widthPixels;
      globals.screenHeight := heightPixels;
    }

    /** `deltaTime`: seconds since the last frame, for the clock value `now`
        in milliseconds. */
    function DeltaTime(now: int): (r: real)
      reads this`prevFrameTime
      ensures r * 1000.0 == (now - prevFrameTime) as real
      ensures now >= prevFrameTime ==> r >= 0.0
    {
      (now - prevFrameTime) as real / 1000.0
    }

    /** `scaledDeltaTime`: the step scaled by the game's time scale; slow
        motion never lengthens it. */
    function ScaledDeltaTime(now: int, globals: Game.Globals): (r: real)
      reads this`prevFrameTime, globals`timeScale
      ensures globals.timeScale == 1.0 ==> r == DeltaTime(now)
      ensures now >= prevFrameTime && 0.0 <= globals.timeScale <= 1.0 ==> 0.0 <= r <= DeltaTime(now)
    {
      var dt := DeltaTime(now);
      assert 0.0 <= globals.timeScale <= 1.0 && dt >= 0.0 ==> dt * globals.timeScale <= dt * 1.0;
      dt * globals.timeScale
    }

    /** The base `update`: only the time of this frame is recorded, so the
        next step is measured from it. */
    method BaseUpdate(now: int)
      modifies this`prevFrameTime
      ensures prevFrameTime == now && DeltaTime(now) == 0.0
    {
      prevFrameTime := now;
    }

    /** `addGameObject`: appends; nothing else changes. */
    method AddGameObject(gameObject: GameObject)
      modifies this`gameObjects
      ensures gameObjects == old(gameObjects) + [gameObject]
    {
      gameObjects := gameObjects + [gameObject];
    }

    /** `resume()`: running again, with the step measured from `now`. */
    method Resume(now: int)
      modifies this`running, this`prevFrameTime
      ensures running && prevFrameTime == now && DeltaTime(now) == 0.0
    {
      running := true;
      prevFrameTime := now;
    }

    /** `pause()`: stops the loop. */
    method Pause()
      modifies this`running
      ensures !running
    {
      running := false;
    }
  }

  /** The objects the game can reach, by class. A ghost bookkeeping value:
      it names the footprint of an update in frames. */
  datatype World = World(objects: set<GameObject>, sprites: set<Sprite>, animators: set<Animator>,
                         animations: set<Animations.Animation>, shapes: set<CollisionShape>,
                         bodies: set<PhysicsBody>, players: set<PlayerBehaviour>, lavas: set<LavaBehaviour>,
                         spawners: set<PipeSpawner>, backgrounds: set<SeamlessBackground>, modes: set<GameMode>)
  {
    /** The component's object belongs to the world. */
    predicate Holds(c: Component)
    {
      match c
      // a sprite changes only through the animator or the player beside
      // it, so the world tracks only the sprites those write to
      case SpriteC(_) => true
      case AnimatorC(a) => a in animators
      case ShapeC(s) => s in shapes
      case BodyC(b) => b in bodies
      case PlayerC(p) => p in players
      case LavaC(l) => l in lavas
      case SpawnerC(s) => s in spawners
      case BackgroundC(b) => b in backgrounds
    }

    /** The component's update has its object in the world: `Holds`
        without the sprites and shapes, whose updates do nothing. Unlike
        `Holds`, it stays true while the world grows. */
    predicate Hosts(c: Component)
    {
      match c
      case SpriteC(_) => true
      case ShapeC(_) => true
      case AnimatorC(a) => a in animators
      case BodyC(b) => b in bodies
      case PlayerC(p) => p in players
      case LavaC(l) => l in lavas
      case SpawnerC(s) => s in spawners
      case BackgroundC(b) => b in backgrounds
    }

    /** What an update may do to the world: add objects and shapes (the
        spawner's pipes) and nothing else. */
    predicate GrowsTo(other: World)
    {
      objects <= other.objects && shapes <= other.shapes && sprites == other.sprites &&
      animators == other.animators && animations == other.animations && bodies == other.bodies &&
      players == other.players && lavas == other.lavas && spawners == other.spawners &&
      backgrounds == other.backgrounds && modes == other.modes
    }

    predicate Within(other: World)
    {
      objects <= other.objects && sprites <= other.sprites && animators <= other.animators &&
      animations <= other.animations && shapes <= other.shapes && bodies <= other.bodies &&
      players <= other.players && lavas <= other.lavas && spawners <= other.spawners &&
      backgrounds <= other.backgrounds && modes <= other.modes
    }
  }

  /** The links that are set once, when the scene is built: each object's
      components, each component's siblings and back-reference, and the
      game modes the callbacks and the spawner write to. */
  ghost predicate Wired(w: World)
    reads w.objects`components, w.animators`sprite, w.shapes`gameObject, w.shapes`onCollision
    reads w.bodies`gameObject, w.bodies`mass, w.players`gameObject, w.players`body, w.players`sprite
    reads w.players`animator, w.lavas`gameObject
  {
    (forall o, i :: o in w.objects && 0 <= i < |o.components| ==> w.Holds(o.components[i])) &&
    (forall o, i :: o in w.objects && 0 <= i < |o.components| && o.components[i].ShapeC? ==>
       o.components[i].shape.gameObject == o) &&
    (forall a :: a in w.animators ==> a.sprite != null && a.sprite in w.sprites) &&
    (forall s :: s in w.shapes ==>
       s.gameObject != null && s.gameObject in w.objects && s.WellFormed() && Targets(s.onCollision) <= w.modes) &&
    (forall b :: b in w.bodies ==> b.gameObject != null && b.gameObject in w.objects && b.mass != 0.0) &&
    (forall p :: p in w.players ==>
       p.gameObject != null && p.gameObject in w.objects && p.body != null && p.body in w.bodies &&
       p.sprite != null && p.sprite in w.sprites && p.animator != null && p.animator in w.animators &&
       p.shootAnimation in w.animations) &&
    (forall l :: l in w.lavas ==> l.gameObject != null && l.gameObject in w.objects && l.player in w.objects) &&
    (forall s :: s in w.spawners ==>
       s.flappyMode in w.modes && s.pipeSprite.Width() >= 0 && s.pipeSprite.Height() >= 0)
  }

  /** The world with a pipe, its sprite and its shape added. */
  function WithPipe(w: World, pipe: GameObject, sprite: Sprite, shape: CollisionShape): (r: World)
    ensures w.GrowsTo(r) && r.objects == w.objects + {pipe} && r.sprites == w.sprites
    ensures r.shapes == w.shapes + {shape} && r.spawners == w.spawners && r.modes == w.modes
    ensures r.animators == w.animators && r.animations == w.animations
  {
    World(w.objects + {pipe}, w.sprites, w.animators, w.animations, w.shapes + {shape}, w.bodies,
          w.players, w.lavas, w.spawners, w.backgrounds, w.modes)
  }

  /** Two pipes added one after the other only add objects, sprites and
      shapes, and keep a wired world wired. */
  lemma WiredWithPipes(w: World, top: GameObject, topSprite: Sprite, topShape: CollisionShape,
                       bottom: GameObject, bottomSprite: Sprite, bottomShape: CollisionShape)
    requires Wired(w)
    requires top.components == [SpriteC(topSprite), ShapeC(topShape)]
    requires topShape.gameObject == top && topShape.WellFormed() && topShape.onCollision == []
    requires bottom.components == [SpriteC(bottomSprite), ShapeC(bottomShape)]
    requires bottomShape.gameObject == bottom && bottomShape.WellFormed() && bottomShape.onCollision == []
    ensures var w2 := WithPipe(WithPipe(w, top, topSprite, topShape), bottom, bottomSprite, bottomShape);
            Wired(w2) && w.GrowsTo(w2) && w2.objects == w.objects + {top, bottom}
  {
    WiredWithPipe(w, top, topSprite, topShape);
    WiredWithPipe(WithPipe(w, top, topSprite, topShape), bottom, bottomSprite, bottomShape);
  }

  /** A built pipe, with its sprite and its shape, joins a wired world
      without unwiring it. */
  lemma WiredWithPipe(w: World, pipe: GameObject, sprite: Sprite, shape: CollisionShape)
    requires Wired(w)
    requires pipe.components == [SpriteC(sprite), ShapeC(shape)]
    requires shape.gameObject == pipe && shape.WellFormed() && shape.onCollision == []
    ensures Wired(WithPipe(w, pipe, sprite, shape))
  {
    var w2 := WithPipe(w, pipe, sprite, shape);
    assert forall c :: w.Holds(c) ==> w2.Holds(c);
    assert Targets(shape.onCollision) == {};
  }

  /** What the updates keep true of the state they change: animations are
      in range and on their sheet, and the spawners' and modes' lists hold
      world objects without repetition. */
  ghost predicate Live(w: World)
    reads w.animators`animation, w.animations`frameIndex, w.spawners`pipes, w.modes`gameObjects
  {
    LiveAnimations(w) && LiveSpawners(w) && LiveModes(w)
  }

  /** Both invariants of the world. */
  ghost predicate Sound(w: World)
    reads w.objects`components, w.animators`sprite, w.shapes`gameObject, w.shapes`onCollision
    reads w.bodies`gameObject, w.bodies`mass, w.players`gameObject, w.players`body, w.players`sprite
    reads w.players`animator, w.lavas`gameObject
    reads w.animators`animation, w.animations`frameIndex, w.spawners`pipes, w.modes`gameObjects
  {
    Wired(w) && Live(w)
  }

  ghost predicate LiveAnimations(w: World)
    reads w.animators`animation, w.animations`frameIndex
  {
    (forall a :: a in w.animators && a.animation != null ==> a.animation in w.animations) &&
    (forall a :: a in w.animations ==> a.Valid() && a.OnSheet())
  }

  ghost predicate LiveSpawners(w: World)
    reads w.spawners`pipes
  {
    forall s :: s in w.spawners ==> Distinct(s.pipes) && forall p :: p in s.pipes ==> p in w.objects
  }

  ghost predicate LiveModes(w: World)
    reads w.modes`gameObjects
  {
    forall m :: m in w.modes ==> Distinct(m.gameObjects) && forall o :: o in m.gameObjects ==> o in w.objects
  }

  /** A list of old objects extended by distinct objects not among them
      stays free of repetition. */
  lemma DistinctAppendFresh(s: seq<GameObject>, extra: seq<GameObject>, known: set<GameObject>)
    requires Distinct(s) && Distinct(extra)
    requires forall o :: o in s ==> o in known
    requires forall o :: o in extra ==> o !in known
    ensures Distinct(s + extra)
  {
    forall i, j | 0 <= i < j < |s + extra|
      ensures (s + extra)[i] != (s + extra)[j]
    {
      if i < |s| && j >= |s| {
        assert (s + extra)[i] in s && (s + extra)[j] in extra;
      }
    }
  }
}
