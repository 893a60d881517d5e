/** The playing step both game modes share: the objects present at the
    start of the step update in list order, every pair of collision
    shapes is tested once, and the destroyed objects leave the list. */
module Scene {
  import opened Wrappers
  import Collision
  import Physics
  import Game
  import Entities

  /** A collision shape as the pass sees it: the shape, the shape placed at
      its object's position, the object, and the modes its callbacks set to
      game over. */
  datatype Collider = Collider(shape: Entities.CollisionShape, placed: Collision.Placed,
                               owner: Entities.GameObject, targets: set<Entities.GameMode>)

  /** One invocation of a shape's callback list: the shape, the object the
      callbacks are given, and the modes they set to game over. */
  datatype Call = Call(shape: Entities.CollisionShape, arg: Entities.GameObject, targets: set<Entities.GameMode>)

  /** `a.collidesWith(b)`. */
  predicate Hits(a: Collider, b: Collider)
  {
    a.placed.WellFormed() && b.placed.WellFormed() && Collision.CollidesWith(a.placed, b.placed)
  }

  /** The calls one pair makes, in order: the first shape's callbacks get
      the second shape's object, and the second shape's callbacks get the
      second shape's own object. */
  function PairCalls(a: Collider, b: Collider): seq<Call>
  {
    (if Hits(a, b) then [Call(a.shape, b.owner, a.targets)] else []) +
    (if Hits(b, a) then [Call(b.shape, b.owner, b.targets)] else [])
  }

  /** The modes that some call in `calls` sets to game over. */
  function Fired(calls: seq<Call>): set<Entities.GameMode>
  {
    set k, m | 0 <= k < |calls| && m in calls[k].targets :: m
  }

  /** The modes the pair (a, b) sets to game over: those of the first
      shape's callbacks when it hits the second, and those of the second's
      when it hits the first. */
  function PairFired(a: Collider, b: Collider): set<Entities.GameMode>
  {
    (if Hits(a, b) then a.targets else {}) + (if Hits(b, a) then b.targets else {})
  }

  /** The ordered pairs of positions (i, j) that both hold a shape, the
      first of which collides with the second. */
  function HitPairs(cs: seq<Option<Collider>>): set<(nat, nat)>
  {
    set i: nat, j: nat | i < |cs| && j < |cs| && cs[i].Some? && cs[j].Some? && Hits(cs[i].value, cs[j].value) :: (i, j)
  }

  /** `hits` agrees with the collision tests on every pair of positions
      holding shapes. The order of the pass is stated for any such `hits`,
      which keeps the geometry of the test out of it. */
  ghost predicate HitsAgree(cs: seq<Option<Collider>>, hits: set<(nat, nat)>)
  {
    forall i, j {:trigger Hits(cs[i].value, cs[j].value)} ::
      0 <= i < |cs| && 0 <= j < |cs| && cs[i].Some? && cs[j].Some? ==>
        ((i, j) in hits <==> Hits(cs[i].value, cs[j].value))
  }

  /** The modes the pair at positions `i` and `j` sets to game over; none
      when either object has no shape. */
  function FiredAt(cs: seq<Option<Collider>>, hits: set<(nat, nat)>, i: nat, j: nat): set<Entities.GameMode>
    requires i < |cs| && j < |cs|
  {
    if cs[i].Some? && cs[j].Some? then
      (if (i, j) in hits then cs[i].value.targets else {}) + (if (j, i) in hits then cs[j].value.targets else {})
    else {}
  }

  /** Row `i` of the pass from column `j` on: the pairs (i, j),
      (i, j + 1), ..., (i, |cs| - 1). */
  function RowRest(cs: seq<Option<Collider>>, hits: set<(nat, nat)>, i: nat, j: nat): set<Entities.GameMode>
    requires i < |cs| && j <= |cs|
    decreases |cs| - j
  {
    if j == |cs| then {} else FiredAt(cs, hits, i, j) + RowRest(cs, hits, i, j + 1)
  }

  /** The rows of the pass from row `i` on. Row `i` starts at its own
      position; the last position starts no row. */
  function PassRest(cs: seq<Option<Collider>>, hits: set<(nat, nat)>, i: nat): set<Entities.GameMode>
    requires i <= |cs|
    decreases |cs| - i
  {
    if i + 1 >= |cs| then {} else RowRest(cs, hits, i, i) + PassRest(cs, hits, i + 1)
  }

  /** The whole pass: rows 0 to |cs| - 2, each from its own position to the
      end of the list. */
  function PassFired(cs: seq<Option<Collider>>, hits: set<(nat, nat)>): set<Entities.GameMode>
  {
    PassRest(cs, hits, 0)
  }

  /** The pair at `i` and `j` sets `m` to game over: the first shape hits
      the second and lists `m`, or the second hits the first and lists it. */
  predicate FiresAt(cs: seq<Option<Collider>>, i: nat, j: nat, m: Entities.GameMode)
    requires i < |cs| && j < |cs|
  {
    cs[i].Some? && cs[j].Some? &&
    ((Hits(cs[i].value, cs[j].value) && m in cs[i].value.targets) ||
     (Hits(cs[j].value, cs[i].value) && m in cs[j].value.targets))
  }

  lemma FiredAppend(a: seq<Call>, b: seq<Call>)
    ensures Fired(a + b) == Fired(a) + Fired(b)
  {
    forall m | m in Fired(a + b) ensures m in Fired(a) + Fired(b) {
      var k :| 0 <= k < |a + b| && m in (a + b)[k].targets;
      if k >= |a| {
        assert b[k - |a|] == (a + b)[k];
      }
    }
    forall m | m in Fired(a) + Fired(b) ensures m in Fired(a + b) {
      if m in Fired(b) {
        var k :| 0 <= k < |b| && m in b[k].targets;
        assert (a + b)[|a| + k] == b[k];
      } else {
        var k :| 0 <= k < |a| && m in a[k].targets;
        assert (a + b)[k] == a[k];
      }
    }
  }

  lemma FiredSingle(c: Call)
    ensures Fired([c]) == c.targets
  {
    forall m | m in c.targets ensures m in Fired([c]) {
      assert [c][0] == c;
    }
  }

  /** The modes a pair sets to game over are those named by the callbacks
      it calls. */
  lemma PairFiredMatchesCalls(a: Collider, b: Collider)
    ensures PairFired(a, b) == Fired(PairCalls(a, b))
  {
    var first := if Hits(a, b) then [Call(a.shape, b.owner, a.targets)] else [];
    var second := if Hits(b, a) then [Call(b.shape, b.owner, b.targets)] else [];
    FiredAppend(first, second);
    FiredSingle(Call(a.shape, b.owner, a.targets));
    FiredSingle(Call(b.shape, b.owner, b.targets));
    assert Fired([]) == {};
  }

  /** The pairs of `HitPairs` are exactly those whose test passes. */
  lemma HitPairsAgree(cs: seq<Option<Collider>>)
    ensures HitsAgree(cs, HitPairs(cs))
  {
    forall i, j | 0 <= i < |cs| && 0 <= j < |cs| && cs[i].Some? && cs[j].Some? && Hits(cs[i].value, cs[j].value)
      ensures (i, j) in HitPairs(cs)
    {
      var n: nat, k: nat := i, j;
      assert n < |cs| && k < |cs| && cs[n].Some? && cs[k].Some? && Hits(cs[n].value, cs[k].value);
    }
  }

  /** With agreeing `hits`, a pair sets what its two tests say. */
  lemma FiredAtAgrees(cs: seq<Option<Collider>>, hits: set<(nat, nat)>, i: nat, j: nat)
    requires HitsAgree(cs, hits) && i < |cs| && j < |cs|
    ensures FiredAt(cs, hits, i, j) == if cs[i].Some? && cs[j].Some? then PairFired(cs[i].value, cs[j].value) else {}
  {
    if cs[i].Some? && cs[j].Some? {
      assert (i, j) in hits <==> Hits(cs[i].value, cs[j].value);
      assert (j, i) in hits <==> Hits(cs[j].value, cs[i].value);
    }
  }

  /** A mode row `i` sets from column `j` on comes from one pair of that
      row. */
  lemma {:induction false} RowRestSource(cs: seq<Option<Collider>>, hits: set<(nat, nat)>, i: nat, j: nat,
                                         m: Entities.GameMode) returns (k: nat)
    requires i < |cs| && j <= |cs| && m in RowRest(cs, hits, i, j)
    ensures j <= k < |cs| && m in FiredAt(cs, hits, i, k)
    decreases |cs| - j
  {
    if m in FiredAt(cs, hits, i, j) {
      k := j;
    } else {
      k := RowRestSource(cs, hits, i, j + 1, m);
    }
  }

  /** A mode a pair of row `i` at or after column `j` sets is set by the
      row from `j` on. */
  lemma {:induction false} RowRestMade(cs: seq<Option<Collider>>, hits: set<(nat, nat)>, i: nat, j: nat, k: nat,
                                       m: Entities.GameMode)
    requires i < |cs| && j <= k < |cs| && m in FiredAt(cs, hits, i, k)
    ensures m in RowRest(cs, hits, i, j)
    decreases |cs| - j
  {
    if j < k {
      RowRestMade(cs, hits, i, j + 1, k, m);
    }
  }

  /** A mode the rows from `n` on set comes from one pair of one of them. */
  lemma {:induction false} PassRestSource(cs: seq<Option<Collider>>, hits: set<(nat, nat)>, n: nat,
                                          m: Entities.GameMode) returns (i: nat, k: nat)
    requires n <= |cs| && m in PassRest(cs, hits, n)
    ensures n <= i < |cs| - 1 && i <= k < |cs| && m in FiredAt(cs, hits, i, k)
    decreases |cs| - n
  {
    if m in RowRest(cs, hits, n, n) {
      i := n;
      k := RowRestSource(cs, hits, n, n, m);
    } else {
      i, k := PassRestSource(cs, hits, n + 1, m);
    }
  }

  /** A mode a pair of one of the rows from `n` on sets is set by them. */
  lemma {:induction false} PassRestMade(cs: seq<Option<Collider>>, hits: set<(nat, nat)>, n: nat, i: nat, k: nat,
                                        m: Entities.GameMode)
    requires n <= i < |cs| - 1 && i <= k < |cs| && m in FiredAt(cs, hits, i, k)
    ensures m in PassRest(cs, hits, n)
    decreases |cs| - n
  {
    if n < i {
      PassRestMade(cs, hits, n + 1, i, k, m);
    } else {
      RowRestMade(cs, hits, i, i, k, m);
    }
  }

  /** The pass tests exactly the pairs (i, j) with i < |cs| - 1 and
      i <= j < |cs| (the self-pair of every position but the last, and each
      later position once), so a mode ends up set to game over exactly when
      one of those pairs sets it. */
  lemma FiredExactly(cs: seq<Option<Collider>>, hits: set<(nat, nat)>, m: Entities.GameMode)
    requires HitsAgree(cs, hits)
    ensures m in PassFired(cs, hits) <==> exists i, j :: 0 <= i < |cs| - 1 && i <= j < |cs| && FiresAt(cs, i, j, m)
  {
    if m in PassFired(cs, hits) {
      var i, j := PassRestSource(cs, hits, 0, m);
      FiredAtAgrees(cs, hits, i, j);
      assert FiresAt(cs, i, j, m);
    }
    if exists i, j :: 0 <= i < |cs| - 1 && i <= j < |cs| && FiresAt(cs, i, j, m) {
      var i, j :| 0 <= i < |cs| - 1 && i <= j < |cs| && FiresAt(cs, i, j, m);
      FiredAtAgrees(cs, hits, i, j);
      PassRestMade(cs, hits, 0, i, j, m);
    }
  }

  /** Every position but the last is tested against itself. */
  lemma SelfPairTested(cs: seq<Option<Collider>>, i: nat)
    requires i < |cs| - 1 && cs[i].Some? && Hits(cs[i].value, cs[i].value)
    ensures cs[i].value.targets <= PassFired(cs, HitPairs(cs))
  {
    HitPairsAgree(cs);
    forall m | m in cs[i].value.targets ensures m in PassFired(cs, HitPairs(cs)) {
      assert FiresAt(cs, i, i, m);
      FiredExactly(cs, HitPairs(cs), m);
    }
  }

  /** The last position's self-pair is never tested: on its own, a shape
      that hits itself changes nothing. */
  lemma LastSelfPairSkipped(a: Collider, hits: set<(nat, nat)>)
    ensures PassFired([Some(a)], hits) == {}
  {
  }

  /** When only the later shape's test passes, its callbacks are given its
      own object, not the object it hit, and only its modes are set. */
  lemma SecondShapeGetsItsOwnObject(a: Collider, b: Collider)
    requires !Hits(a, a) && !Hits(a, b) && Hits(b, a)
    ensures PairCalls(a, b) == [Call(b.shape, b.owner, b.targets)]
    ensures PassFired([Some(a), Some(b)], HitPairs([Some(a), Some(b)])) == b.targets
  {
    var cs := [Some(a), Some(b)];
    var hits := HitPairs(cs);
    HitPairsAgree(cs);
    TwoShapePass(cs, hits);
    FiredAtAgrees(cs, hits, 0, 0);
    FiredAtAgrees(cs, hits, 0, 1);
  }

  /** With two positions the pass is the first one's row: its self-pair
      and the pair of the two. */
  lemma TwoShapePass(cs: seq<Option<Collider>>, hits: set<(nat, nat)>)
    requires |cs| == 2
    ensures PassFired(cs, hits) == FiredAt(cs, hits, 0, 0) + FiredAt(cs, hits, 0, 1)
  {
    assert RowRest(cs, hits, 0, 2) == {};
    assert RowRest(cs, hits, 0, 1) == FiredAt(cs, hits, 0, 1);
    assert RowRest(cs, hits, 0, 0) == FiredAt(cs, hits, 0, 0) + FiredAt(cs, hits, 0, 1);
    assert PassRest(cs, hits, 1) == {};
    assert PassRest(cs, hits, 0) == RowRest(cs, hits, 0, 0);
  }

  /** The player's shape (mask ENEMY, layer PLAYER) never collides with
      itself, so its self-pair makes no call. */
  lemma PlayerSelfPairSilent(a: Collider)
    requires a.placed.layerMask == Physics.ENEMY && a.placed.isLayer == Physics.PLAYER
    ensures !Hits(a, a) && PairCalls(a, a) == [] && PairFired(a, a) == {}
  {
    Collision.GameLayers();
    if a.placed.WellFormed() {
      Collision.CollidesIffMaskAndTouching(a.placed, a.placed);
    }
  }

  /** A shape that is not last and hits a later (or the same) shape sets the
      modes of its callbacks to game over. */
  lemma LeaderHitFires(cs: seq<Option<Collider>>, i: nat, j: nat, m: Entities.GameMode)
    requires i < |cs| - 1 && i <= j < |cs| && cs[i].Some? && cs[j].Some?
    requires Hits(cs[i].value, cs[j].value) && m in cs[i].value.targets
    ensures m in PassFired(cs, HitPairs(cs))
  {
    assert FiresAt(cs, i, j, m);
    HitPairsAgree(cs);
    FiredExactly(cs, HitPairs(cs), m);
  }

  /** The collision shapes attached to `o`. */
  function ShapesOf(o: Entities.GameObject): set<Entities.CollisionShape>
    reads o`components
  {
    set k | 0 <= k < |o.components| && o.components[k].ShapeC? :: o.components[k].shape
  }

  /** `getComponent<CollisionShape>()` of `o`, as the pass sees it. */
  function ColliderOf(o: Entities.GameObject): Option<Collider>
    reads o`components, o`transform, ShapesOf(o)`onCollision
  {
    match o.GetComponent(Entities.ShapeKind)
    case None => None
    case Some(c) =>
      if c.ShapeC? then
        Some(Collider(c.shape, Collision.Placed(c.shape.geometry, c.shape.layerMask, c.shape.isLayer, o.transform.position),
                      o, Entities.Targets(c.shape.onCollision)))
      else None
  }

  /** A row whose first object has no shape makes no call. */
  lemma {:induction false} NoShapeNoRow(cs: seq<Option<Collider>>, hits: set<(nat, nat)>, i: nat, j: nat)
    requires i < |cs| && j <= |cs| && cs[i].None?
    ensures RowRest(cs, hits, i, j) == {}
    decreases |cs| - j
  {
    if j < |cs| {
      NoShapeNoRow(cs, hits, i, j + 1);
    }
  }

  /** What the pass sees of the objects `objs`, position by position. */
  ghost method Snapshot(objs: seq<Entities.GameObject>) returns (cs: seq<Option<Collider>>)
    ensures |cs| == |objs| && forall k :: 0 <= k < |cs| ==> cs[k] == ColliderOf(objs[k])
  {
    cs := [];
    while |cs| < |objs|
      invariant |cs| <= |objs| && forall k :: 0 <= k < |cs| ==> cs[k] == ColliderOf(objs[k])
    {
      cs := cs + [ColliderOf(objs[|cs|])];
    }
  }

  /** The playing step's first loop over `objs`, the mode's list as the
      step began: its objects update one after the other. Updates only
      append to the list (new pipes), so position `i` of the list still
      holds the `i`-th object of `objs` when the loop reaches it, and the
      appended objects wait for the next step. */
  method UpdateObjects(objs: seq<Entities.GameObject>, deltaTime: real, globals: Game.Globals, rnd: real,
                       ghost w: Entities.World, ghost w0: Entities.World,
                       ghost lists0: map<Entities.GameMode, seq<Entities.GameObject>>)
    returns (ghost w2: Entities.World)
    requires Entities.Sound(w) && 0.0 <= rnd < 1.0
    requires w0.GrowsTo(w) && forall k :: 0 <= k < |objs| ==> objs[k] in w0.objects
    requires forall m :: m in w0.modes ==> m in lists0 && lists0[m] <= m.gameObjects
    modifies w.objects`transform, w.objects`destroyed, w.sprites`bitmap, w.sprites`flipY
    modifies w.animations`frameIndex, w.animations`timer, w.bodies`velocity, w.bodies`angleVelocity
    modifies w.players`timer, w.lavas`xOffset, w.spawners`pipes, w.spawners`totalMoved
    modifies w.backgrounds`backgroundX, w.modes`gameObjects, w.modes`score
    ensures Entities.Sound(w2) && w0.GrowsTo(w2) && w.objects <= w2.objects
    ensures fresh(w2.objects - w.objects)
    ensures forall m :: m in w0.modes ==> lists0[m] <= m.gameObjects
    ensures forall m :: m in w0.modes ==> m.gameState == old(m.gameState)
    decreases |objs|, 1
  {
    if objs == [] {
      return w;
    }
    w2 := UpdateFirst(objs, deltaTime, globals, rnd, w, w0, lists0);
  }

  /** The first object of `objs` updates, then the rest of them. */
  method UpdateFirst(objs: seq<Entities.GameObject>, deltaTime: real, globals: Game.Globals, rnd: real,
                     ghost w: Entities.World, ghost w0: Entities.World,
                     ghost lists0: map<Entities.GameMode, seq<Entities.GameObject>>)
    returns (ghost w2: Entities.World)
    requires objs != [] && Entities.Sound(w) && 0.0 <= rnd < 1.0
    requires w0.GrowsTo(w) && forall k :: 0 <= k < |objs| ==> objs[k] in w0.objects
    requires forall m :: m in w0.modes ==> m in lists0 && lists0[m] <= m.gameObjects
    modifies w.objects`transform, w.objects`destroyed, w.sprites`bitmap, w.sprites`flipY
    modifies w.animations`frameIndex, w.animations`timer, w.bodies`velocity, w.bodies`angleVelocity
    modifies w.players`timer, w.lavas`xOffset, w.spawners`pipes, w.spawners`totalMoved
    modifies w.backgrounds`backgroundX, w.modes`gameObjects, w.modes`score
    ensures Entities.Sound(w2) && w0.GrowsTo(w2) && w.objects <= w2.objects
    ensures fresh(w2.objects - w.objects)
    ensures forall m :: m in w0.modes ==> lists0[m] <= m.gameObjects
    decreases |objs|, 0
  {
    var w1 := objs[0].Update(deltaTime, globals, rnd, w, w0, lists0);
    w2 := UpdateObjects(objs[1..], deltaTime, globals, rnd, w1, w0, lists0);
  }

  /** A shape the pass can test and call: it is attached, its sides are
      not negative, and its callbacks name modes of `modes`. */
  ghost predicate Ready(s: Entities.CollisionShape, modes: set<Entities.GameMode>)
    reads s
  {
    s.gameObject != null && s.WellFormed() && Entities.Targets(s.onCollision) <= modes
  }

  /** What the pass needs of the world: every collision shape attached to
      an object of the world is tracked, points back at that object and is
      ready. It follows from `Entities.Wired` and reads nothing the pass
      writes. */
  ghost predicate ShapesReady(w: Entities.World)
    reads w.objects`components, w.shapes
  {
    forall o, i :: o in w.objects && 0 <= i < |o.components| && o.components[i].ShapeC? ==>
      o.components[i].shape in w.shapes && o.components[i].shape.gameObject == o &&
      Ready(o.components[i].shape, w.modes)
  }

  lemma WiredShapesReady(w: Entities.World)
    requires Entities.Wired(w)
    ensures ShapesReady(w)
  {
  }

  /** Each mode of `modes` is over when it is in `over`, and otherwise in
      the state `states` gives it. */
  ghost predicate StatesAre(modes: set<Entities.GameMode>, over: set<Entities.GameMode>,
                            states: map<Entities.GameMode, Entities.GameState>)
    reads modes`gameState
  {
    forall m :: m in modes ==> m in states && m.gameState == (if m in over then Entities.GameOver else states[m])
  }

  /** The callbacks of `shape` run with `arg`: the modes they name join
      those already set to game over (`fired`); the others keep the state
      they had when the pass began (`states`). */
  method Invoke(shape: Entities.CollisionShape, arg: Entities.GameObject, ghost w: Entities.World,
                ghost objs: seq<Entities.GameObject>, ghost cs: seq<Option<Collider>>,
                ghost fired: set<Entities.GameMode>, ghost states: map<Entities.GameMode, Entities.GameState>)
    requires ShapesReady(w) && Ready(shape, w.modes)
    requires |cs| == |objs| && forall k :: 0 <= k < |cs| ==> cs[k] == ColliderOf(objs[k])
    requires StatesAre(w.modes, fired, states)
    modifies w.modes`gameState
    ensures ShapesReady(w) && forall k :: 0 <= k < |cs| ==> cs[k] == ColliderOf(objs[k])
    ensures StatesAre(w.modes, fired + Entities.Targets(shape.onCollision), states)
  {
    ghost var f := shape.OnCollision(arg);
  }

  /** One pair of the pass: `collider` (the shape of the row's object,
      seen as `a`) and `other` (seen as `b`); `made` lists the callback
      lists it runs, with the object each is given. */
  method CollidePair(collider: Entities.CollisionShape, other: Entities.CollisionShape, ghost w: Entities.World,
                     ghost objs: seq<Entities.GameObject>, ghost cs: seq<Option<Collider>>, ghost a: Collider, ghost b: Collider,
                     ghost fired: set<Entities.GameMode>, ghost states: map<Entities.GameMode, Entities.GameState>)
    returns (ghost made: seq<Call>)
    requires ShapesReady(w) && Ready(collider, w.modes) && Ready(other, w.modes)
    requires a.shape == collider && a.placed == collider.Placed() && a.targets == Entities.Targets(collider.onCollision)
    requires b.shape == other && b.placed == other.Placed() && b.targets == Entities.Targets(other.onCollision)
    requires b.owner == other.gameObject
    requires |cs| == |objs| && forall k :: 0 <= k < |cs| ==> cs[k] == ColliderOf(objs[k])
    requires StatesAre(w.modes, fired, states)
    modifies w.modes`gameState
    ensures made == PairCalls(a, b)
    ensures ShapesReady(w) && forall k :: 0 <= k < |cs| ==> cs[k] == ColliderOf(objs[k])
    ensures StatesAre(w.modes, fired + PairFired(a, b), states)
  {
    made := [];
    if collider.CollidesWith(other) {
      Invoke(collider, other.gameObject, w, objs, cs, fired, states);
      made := [Call(collider, other.gameObject, a.targets)];
    }
    ghost var firedFirst := fired + (if Hits(a, b) then a.targets else {});
    if other.CollidesWith(collider) {
      Invoke(other, other.gameObject, w, objs, cs, firedFirst, states);
      made := made + [Call(other, other.gameObject, b.targets)];
    }
  }

  /** Row `i` of the pass from column `j` on: `collider`, the shape of
      `objs[i]`, against the shape of every object from position `j` to the
      end of the list. `over` holds the modes set to game over so far. */
  method CollideRow(objs: seq<Entities.GameObject>, i: nat, j: nat, collider: Entities.CollisionShape,
                    ghost w: Entities.World, ghost cs: seq<Option<Collider>>, ghost hits: set<(nat, nat)>,
                    ghost over: set<Entities.GameMode>, ghost states: map<Entities.GameMode, Entities.GameState>)
    requires ShapesReady(w) && i <= j <= |objs| == |cs| && i < |objs|
    requires forall k :: 0 <= k < |objs| ==> objs[k] in w.objects
    requires forall k :: 0 <= k < |cs| ==> cs[k] == ColliderOf(objs[k])
    requires cs[i].Some? && cs[i].value.shape == collider && Ready(collider, w.modes) && collider.gameObject == objs[i]
    requires HitsAgree(cs, hits) && StatesAre(w.modes, over, states)
    modifies w.modes`gameState
    ensures ShapesReady(w) && forall k :: 0 <= k < |cs| ==> cs[k] == ColliderOf(objs[k])
    ensures StatesAre(w.modes, over + RowRest(cs, hits, i, j), states)
    decreases |objs| - j
  {
    if j == |objs| {
      assert over + RowRest(cs, hits, i, j) == over;
      return;
    }
    RowStep(objs, i, j, collider, w, cs, hits, over, states);
    CollideRow(objs, i, j + 1, collider, w, cs, hits, over + FiredAt(cs, hits, i, j), states);
    assert over + FiredAt(cs, hits, i, j) + RowRest(cs, hits, i, j + 1) == over + RowRest(cs, hits, i, j);
  }

  /** The pair (i, j) of row `i`; skipped when `objs[j]` has no shape. */
  method RowStep(objs: seq<Entities.GameObject>, i: nat, j: nat, collider: Entities.CollisionShape, ghost w: Entities.World,
                 ghost cs: seq<Option<Collider>>, ghost hits: set<(nat, nat)>,
                 ghost fired: set<Entities.GameMode>, ghost states: map<Entities.GameMode, Entities.GameState>)
    requires ShapesReady(w) && i < |objs| && j < |objs| == |cs| && objs[j] in w.objects
    requires cs[i].Some? && cs[i].value.shape == collider && Ready(collider, w.modes) && collider.gameObject == objs[i]
    requires forall k :: 0 <= k < |cs| ==> cs[k] == ColliderOf(objs[k])
    requires HitsAgree(cs, hits) && StatesAre(w.modes, fired, states)
    modifies w.modes`gameState
    ensures ShapesReady(w) && forall k :: 0 <= k < |cs| ==> cs[k] == ColliderOf(objs[k])
    ensures StatesAre(w.modes, fired + FiredAt(cs, hits, i, j), states)
  {
    var other := objs[j].GetComponent(Entities.ShapeKind);
    assert cs[j] == ColliderOf(objs[j]);
    if other.Some? && other.value.ShapeC? {
      var shape := other.value.shape;
      assert Entities.ShapeC(shape) in objs[j].components;
      ghost var made := CollidePair(collider, shape, w, objs, cs, cs[i].value, cs[j].value, fired, states);
      FiredAtAgrees(cs, hits, i, j);
    } else {
      assert fired + FiredAt(cs, hits, i, j) == fired;
    }
  }

  /** The rows of the pass from row `i` on: row `i` when `objs[i]` has a
      shape and is not last, then the rows after it. */
  method CollideRows(objs: seq<Entities.GameObject>, i: nat, ghost w: Entities.World,
                     ghost cs: seq<Option<Collider>>, ghost hits: set<(nat, nat)>,
                     ghost over: set<Entities.GameMode>, ghost states: map<Entities.GameMode, Entities.GameState>)
    requires ShapesReady(w) && i <= |objs| == |cs|
    requires forall k :: 0 <= k < |objs| ==> objs[k] in w.objects
    requires forall k :: 0 <= k < |cs| ==> cs[k] == ColliderOf(objs[k])
    requires HitsAgree(cs, hits) && StatesAre(w.modes, over, states)
    modifies w.modes`gameState
    ensures ShapesReady(w) && forall k :: 0 <= k < |cs| ==> cs[k] == ColliderOf(objs[k])
    ensures StatesAre(w.modes, over + PassRest(cs, hits, i), states)
    decreases |objs| - i
  {
    if i + 1 >= |objs| {
      assert over + PassRest(cs, hits, i) == over;
      return;
    }
    var collider := objs[i].GetComponent(Entities.ShapeKind);
    assert cs[i] == ColliderOf(objs[i]);
    if collider.Some? && collider.value.ShapeC? {
      var shape := collider.value.shape;
      assert Entities.ShapeC(shape) in objs[i].components;
      CollideRow(objs, i, i, shape, w, cs, hits, over, states);
    } else {
      NoShapeNoRow(cs, hits, i, i);
      assert over + RowRest(cs, hits, i, i) == over;
    }
    CollideRows(objs, i + 1, w, cs, hits, over + RowRest(cs, hits, i, i), states);
    assert over + RowRest(cs, hits, i, i) + PassRest(cs, hits, i + 1) == over + PassRest(cs, hits, i);
  }

  /** The pass over the mode's objects: row `i` for every position but the
      last whose object has a shape (the others are skipped). */
  method CollisionPass(mode: Entities.GameMode, ghost w: Entities.World, ghost cs: seq<Option<Collider>>)
    requires Entities.Wired(w) && Entities.Live(w) && mode in w.modes
    requires |cs| == |mode.gameObjects| && forall k :: 0 <= k < |cs| ==> cs[k] == ColliderOf(mode.gameObjects[k])
    modifies w.modes`gameState
    ensures forall m :: m in w.modes ==>
              m.gameState == (if m in PassFired(cs, HitPairs(cs)) then Entities.GameOver else old(m.gameState))
    ensures Entities.Wired(w) && Entities.Live(w) && forall k :: 0 <= k < |cs| ==> cs[k] == ColliderOf(mode.gameObjects[k])
  {
    var objs := mode.gameObjects;
    ghost var states := map m | m in w.modes :: m.gameState;
    ghost var hits := HitPairs(cs);
    HitPairsAgree(cs);
    assert forall k :: 0 <= k < |objs| ==> objs[k] in w.objects;
    WiredShapesReady(w);
    CollideRows(objs, 0, w, cs, hits, {}, states);
    assert {} + PassRest(cs, hits, 0) == PassFired(cs, hits);
  }

  /** The removal loop of the playing step: from the last position down to
      the first, each destroyed object leaves the list through `remove`
      (which drops its first occurrence). The others keep their order. */
  method Compact(mode: Entities.GameMode)
    requires Entities.Distinct(mode.gameObjects)
    modifies mode`gameObjects
    ensures mode.gameObjects == Entities.Survivors(old(mode.gameObjects))
  {
    ghost var original := mode.gameObjects;
    var i := |mode.gameObjects| - 1;
    while i >= 0
      invariant -1 <= i < |original|
      invariant mode.gameObjects == original[..i + 1] + Entities.Survivors(original[i + 1..])
    {
      Entities.CompactStep(original, i);
      var gameObject := mode.gameObjects[i];
      if gameObject.destroyed {
        mode.gameObjects := Entities.RemoveFirst(mode.gameObjects, gameObject);
      }
      i := i - 1;
    }
    assert original[0..] == original;
  }

  /** The compaction keeps the world live and wired, and changes nothing the
      pass saw: the list loses exactly its destroyed objects. */
  method RemoveDestroyed(mode: Entities.GameMode, ghost w: Entities.World, ghost objs: seq<Entities.GameObject>,
                         ghost cs: seq<Option<Collider>>)
    requires Entities.Wired(w) && Entities.Live(w) && mode in w.modes
    requires |cs| == |objs| && forall k :: 0 <= k < |cs| ==> cs[k] == ColliderOf(objs[k])
    modifies mode`gameObjects
    ensures mode.gameObjects == Entities.Survivors(old(mode.gameObjects))
    ensures forall o :: o in mode.gameObjects <==> o in old(mode.gameObjects) && !o.destroyed
    ensures Entities.Wired(w) && Entities.Live(w)
    ensures forall k :: 0 <= k < |cs| ==> cs[k] == ColliderOf(objs[k])
  {
    ghost var original := mode.gameObjects;
    Compact(mode);
    Entities.SurvivorsKeep(original);
    Entities.SurvivorsDistinct(original);
  }

  /** The pass over `passed`, the mode's list, then the compaction of the
      list; `cs` is what the pass sees. */
  method CollideAndCompact(mode: Entities.GameMode, ghost w: Entities.World, ghost passed: seq<Entities.GameObject>)
    returns (ghost cs: seq<Option<Collider>>)
    requires Entities.Wired(w) && Entities.Live(w) && mode in w.modes && passed == mode.gameObjects
    modifies w.modes`gameState, mode`gameObjects
    ensures Entities.Wired(w) && Entities.Live(w)
    ensures |cs| == |passed| && forall k :: 0 <= k < |cs| ==> cs[k] == ColliderOf(passed[k])
    ensures forall m :: m in w.modes ==>
              m.gameState == (if m in PassFired(cs, HitPairs(cs)) then Entities.GameOver else old(m.gameState))
    ensures mode.gameObjects == Entities.Survivors(passed)
  {
    cs := Snapshot(passed);
    CollisionPass(mode, w, cs);
    RemoveDestroyed(mode, w, passed, cs);
  }

  /** The playing step both game modes share: the objects on the list when
      the step begins update in order; the pass runs over the list as the
      updates left it (`passed`, seen as `cs`), so pipes spawned during the
      updates take part in it; then the destroyed objects leave the list. */
  method PlayingStep(mode: Entities.GameMode, deltaTime: real, globals: Game.Globals, rnd: real,
                     ghost w: Entities.World)
    returns (ghost w2: Entities.World, ghost passed: seq<Entities.GameObject>, ghost cs: seq<Option<Collider>>)
    requires Entities.Sound(w) && mode in w.modes && 0.0 <= rnd < 1.0
    modifies w.objects`transform, w.objects`destroyed, w.sprites`bitmap, w.sprites`flipY
    modifies w.animations`frameIndex, w.animations`timer, w.bodies`velocity, w.bodies`angleVelocity
    modifies w.players`timer, w.lavas`xOffset, w.spawners`pipes, w.spawners`totalMoved
    modifies w.backgrounds`backgroundX, w.modes`gameObjects, w.modes`score, w.modes`gameState
    ensures Entities.Sound(w2) && w.GrowsTo(w2) && fresh(w2.objects - w.objects)
    ensures old(mode.gameObjects) <= passed
    ensures |cs| == |passed| && forall k :: 0 <= k < |cs| ==> cs[k] == ColliderOf(passed[k])
    ensures forall m :: m in w.modes ==>
              m.gameState == (if m in PassFired(cs, HitPairs(cs)) then Entities.GameOver else old(m.gameState))
    ensures mode.gameObjects == Entities.Survivors(passed)
  {
    var objs := mode.gameObjects;
    ghost var lists0 := map m | m in w.modes :: m.gameObjects;
    assert forall k :: 0 <= k < |objs| ==> objs[k] in w.objects;
    w2 := UpdateObjects(objs, deltaTime, globals, rnd, w, w, lists0);
    passed := mode.gameObjects;
    cs := CollideAndCompact(mode, w2, passed);
  }
}
