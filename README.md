# trigger-finger: a verified model of the game's simulation core

trigger-finger is a small Android arcade game. The player is a gun that flies by
firing: each shot kicks it away from where it points and spins it. The game has
two modes. In the flappy mode the gun flies between scrolling pipes, scoring one
point per pipe that leaves the screen (two per pair). In the endless mode it climbs away from rising lava,
scoring the greatest height reached. This project models the game's simulation
core in Dafny, without drawing, sound or threads, and proves properties of it.

The modules follow the program's packages:

- `Vectors` is `Vector2`. It has a value type `Vec2` with the copy-returning
  operators, and a class `Vector2` with the in-place operators and the
  fresh-copy constants. `MathHelper` holds `fraction` and `fractal`. `Game` holds
  the unit conversion and the screen/time-scale globals, passed as an object.
  `Physics` holds the layer bits and constants.
- `Motion` is the physics step of `PhysicsBody`. It applies gravity, then
  damping scaled by the time scale, then semi-implicit integration. It also
  covers the impulses.
- `Collision` covers `CollisionShape`: the layer-mask filter, the four
  circle/rectangle tests and the dispatch over them, and containment.
- `Animations` is the sprite-sheet frame machine of `Animation`: the sticky end
  of a cycle, rows and columns, the source rectangle and the 24 FPS timer gate.
- `PlayerRules`, `LavaRules`, `PipeRules` and `BackgroundRules` are the
  arithmetic of the behaviours: ammunition and cooldown, edge clamp and bounce,
  lava speed, gap geometry and scroll wrap-around.
- `Entities` is the object graph: `GameObject`, the component kinds, the
  component classes and the `GameMode` base. It covers attach-then-initialize,
  first-match lookup, in-order update, layer-filtered drawing and the
  order-preserving removal of destroyed objects. Its component classes are
  `Sprite`, `Animator`, `CollisionShape`, `PhysicsBody`, `PlayerBehaviour`,
  `LavaBehaviour`, `PipeSpawner` and `SeamlessBackground`.
- `Legacy` holds the root-package `PlayerBehaviour` and `LavaBehaviour`.
- `Touch` is the `TouchEventHandler` gesture classifier. It covers the
  start/drag/hold/end state, the drag threshold of 15 and the ordered listener
  lists.
- `Scene` is the per-frame work the two modes share. It updates every object,
  runs the pairwise collision pass with its self-pairs and its argument quirk,
  and compacts the object list.
- `Modes` holds the player assembly and the touch dispatch both modes use.
  `Flappy` and `Endless` are the two game modes, each with its state machine
  PAUSED → PLAYING → GAME_OVER.

The objects of one scene are held together by a ghost `Entities.World`: the set
of objects of each class. `Wired` says the objects and components point at each
other as built. `Live` says the lists and animations the update loops visit lie
inside the world. These two are the invariants every mode step keeps.

Each update that changes state is a method, and its `ensures` gives the new
state in terms of functions of the old one. The lemmas beside those functions
prove what the game promises. The best height never falls, and each pipe that
leaves the screen scores one point. The camera never moves down. A shot needs
ammunition and no cooldown, and it spends exactly one round. Below the player,
the lava never rises slower than its minimum. The background offset never ends
more than one image width to the left. A drag is exactly a move of more than 15
pixels. Normalising never divides by zero.

Kotlin `Float` is modelled as `real` and bit masks as `bv32`. The wall clock
(`System.currentTimeMillis`) and `Random.nextFloat` become method parameters, and
so does the facing direction (cosine and sine of the rotation).

## Model

| member | source | states |
|---|---|---|
| Vectors.Vec2.Plus | app/src/main/java/emi/uhl/triggerfinger/math/Vector2.kt:46 | the sum is componentwise |
| Vectors.Vec2.Minus | app/src/main/java/emi/uhl/triggerfinger/math/Vector2.kt:56 | the difference is the inverse of addition: adding `other` back gives the receiver |
| Vectors.Vec2.Times | app/src/main/java/emi/uhl/triggerfinger/math/Vector2.kt:49 | scaling by 1 is the identity and scaling by 0 gives the zero vector |
| Vectors.Vec2.Div | app/src/main/java/emi/uhl/triggerfinger/math/Vector2.kt:52 | for a non-zero divisor, dividing is undone by multiplying by the same value |
| Vectors.Vec2.Neg | app/src/main/java/emi/uhl/triggerfinger/math/Vector2.kt:55 | the opposite vector sums with the receiver to zero and equals scaling by -1 |
| Vectors.Vec2.LengthSquared | app/src/main/java/emi/uhl/triggerfinger/math/Vector2.kt:60 | the squared length is never negative |
| Vectors.DistanceSquared | app/src/main/java/emi/uhl/triggerfinger/math/Vector2.kt:27-29 | the squared distance is never negative and is zero from a point to itself |
| Vectors.DistanceSymmetric | app/src/main/java/emi/uhl/triggerfinger/math/Vector2.kt:27-29 | `distance(a, b)` equals `distance(b, a)`, stated on squared lengths |
| Vectors.ScreenAxes | app/src/main/java/emi/uhl/triggerfinger/math/Vector2.kt:13-20 | `up` is the opposite of `down` and `left` of `right`; y grows down the screen |
| Vectors.PlusThenMinus | app/src/main/java/emi/uhl/triggerfinger/math/Vector2.kt:46-47 | `a += b` followed by `a -= b` restores `a` |
| Vectors.TimesThenDiv | app/src/main/java/emi/uhl/triggerfinger/math/Vector2.kt:50-53 | `a *= k` followed by `a /= k` restores `a` for every non-zero `k` |
| Vectors.Vector2.constructor | app/src/main/java/emi/uhl/triggerfinger/math/Vector2.kt:9 | a new vector holds the given components |
| Vectors.Vector2.Of | app/src/main/java/emi/uhl/triggerfinger/math/Vector2.kt:12 | `copy()` returns a fresh vector with the same value |
| Vectors.Vector2.Zero | app/src/main/java/emi/uhl/triggerfinger/math/Vector2.kt:11-12 | every read of `zero` returns a fresh (0, 0), so mutating it cannot change the constant |
| Vectors.Vector2.Right | app/src/main/java/emi/uhl/triggerfinger/math/Vector2.kt:13-14 | every read of `right` returns a fresh (1, 0) |
| Vectors.Vector2.Left | app/src/main/java/emi/uhl/triggerfinger/math/Vector2.kt:15-16 | every read of `left` returns a fresh (-1, 0) |
| Vectors.Vector2.Up | app/src/main/java/emi/uhl/triggerfinger/math/Vector2.kt:17-18 | every read of `up` returns a fresh (0, -1) |
| Vectors.Vector2.Down | app/src/main/java/emi/uhl/triggerfinger/math/Vector2.kt:19-20 | every read of `down` returns a fresh (0, 1) |
| Vectors.Vector2.PlusAssign | app/src/main/java/emi/uhl/triggerfinger/math/Vector2.kt:46 | the receiver becomes its old value plus the other's old value, also when both are the same object |
| Vectors.Vector2.MinusAssign | app/src/main/java/emi/uhl/triggerfinger/math/Vector2.kt:47 | the receiver becomes its old value minus the other's old value, in place |
| Vectors.Vector2.TimesAssign | app/src/main/java/emi/uhl/triggerfinger/math/Vector2.kt:50 | the receiver is scaled in place |
| Vectors.Vector2.DivAssign | app/src/main/java/emi/uhl/triggerfinger/math/Vector2.kt:53 | the receiver is divided in place by a non-zero value |
| Vectors.Vector2.Times | app/src/main/java/emi/uhl/triggerfinger/math/Vector2.kt:49 | returns a new scaled vector and leaves the receiver unchanged |
| Vectors.Vector2.Div | app/src/main/java/emi/uhl/triggerfinger/math/Vector2.kt:52 | returns a new divided vector and leaves the receiver unchanged |
| Vectors.Vector2.Neg | app/src/main/java/emi/uhl/triggerfinger/math/Vector2.kt:55 | returns a new opposite vector and leaves the receiver unchanged |
| Vectors.Vector2.Minus | app/src/main/java/emi/uhl/triggerfinger/math/Vector2.kt:56 | returns a new difference and changes neither operand |
| Vectors.Vector2.Normalize | app/src/main/java/emi/uhl/triggerfinger/math/Vector2.kt:70-75 | a vector of length zero is left as it is, so nothing is divided by zero; any other vector is divided by its length, which scaling back by the length undoes |
| Vectors.Vector2.Normalized | app/src/main/java/emi/uhl/triggerfinger/math/Vector2.kt:62-68 | returns a normalized fresh copy and leaves the receiver unchanged |
| Game.ToUnits | app/src/main/java/emi/uhl/triggerfinger/game/Game.kt:9-16 | a length in units times 200 gives the length in pixels |
| Game.ToPixels | app/src/main/java/emi/uhl/triggerfinger/game/Game.kt:9-17 | a length in pixels divided by 200 gives the length in units |
| Game.ConversionsRoundTrip | app/src/main/java/emi/uhl/triggerfinger/game/Game.kt:16-17 | `toPixels(toUnits(v)) == v` and `toUnits(toPixels(v)) == v` for every v |
| Game.OneUnit | app/src/main/java/emi/uhl/triggerfinger/game/Game.kt:9-17 | one unit is 200 pixels |
| Game.ConversionsMonotone | app/src/main/java/emi/uhl/triggerfinger/game/Game.kt:16-17 | both conversions are strictly increasing and keep the sign, zero included |
| Game.Globals.constructor | app/src/main/java/emi/uhl/triggerfinger/game/Game.kt:11-14 | the screen size starts at -1 (unmeasured) and the time scale at 1.0 |
| MathHelper.Fraction | app/src/main/java/emi/uhl/triggerfinger/math/MathHelper.kt:8-10 | for a non-empty span, the fraction times the span is the offset of `value` from `begin` |
| MathHelper.Fractal | app/src/main/java/emi/uhl/triggerfinger/math/MathHelper.kt:12-14 | fraction 0 gives `begin` and fraction 1 gives `end` |
| MathHelper.FractionOfEnds | app/src/main/java/emi/uhl/triggerfinger/math/MathHelper.kt:8-10 | `fraction(begin)` is 0 and `fraction(end)` is 1 when begin and end differ |
| MathHelper.FractalOfFraction | app/src/main/java/emi/uhl/triggerfinger/math/MathHelper.kt:8-14 | `fractal(fraction(v))` is v for a non-empty span |
| MathHelper.FractionOfFractal | app/src/main/java/emi/uhl/triggerfinger/math/MathHelper.kt:8-14 | `fraction(fractal(t))` is t for a non-empty span |
| Physics.Gravity | app/src/main/java/emi/uhl/triggerfinger/physics/Physics.kt:11 | every read of `GRAVITY` returns a fresh copy of (0, 750), so callers cannot alter the constant |
| Physics.LayerBits | app/src/main/java/emi/uhl/triggerfinger/physics/Physics.kt:6-8 | PLAYER, ENEMY and ENVIRONMENT are the single bits 1, 2 and 4, pairwise disjoint |
| Physics.GravityPointsDown | app/src/main/java/emi/uhl/triggerfinger/physics/Physics.kt:11 | gravity is `down` times 750, that is (0, 750), pointing down the screen |
| Physics.DampingIsProperFraction | app/src/main/java/emi/uhl/triggerfinger/physics/Physics.kt:10 | DAMPING is 0.01, strictly between 0 and 1 |
| Motion.Gravitate | app/src/main/java/emi/uhl/triggerfinger/physics/PhysicsBody.kt:13 | with gravity on, only the vertical speed changes, by 750 * deltaTime; with it off nothing changes |
| Motion.DampVelocity | app/src/main/java/emi/uhl/triggerfinger/physics/PhysicsBody.kt:16 | adding `-velocity * DAMPING * timeScale` leaves the velocity scaled by 1 - DAMPING * timeScale |
| Motion.DampAngle | app/src/main/java/emi/uhl/triggerfinger/physics/PhysicsBody.kt:17 | the spin is scaled by 1 - DAMPING * timeScale |
| Motion.Step | app/src/main/java/emi/uhl/triggerfinger/physics/PhysicsBody.kt:12-22 | gravity first, then damping by the time scale (not by deltaTime), then position and rotation advance by the already-updated velocity and spin (semi-implicit Euler) |
| Motion.Coasting | app/src/main/java/emi/uhl/triggerfinger/physics/PhysicsBody.kt:12-21 | with gravity and damping both off, velocities are unchanged and the body moves by exactly velocity * deltaTime |
| Motion.FreeFall | app/src/main/java/emi/uhl/triggerfinger/physics/PhysicsBody.kt:13-20 | n undamped steps with gravity add n * 750 * deltaTime to the downward speed and keep the horizontal speed and spin |
| Motion.FallingMovesDown | app/src/main/java/emi/uhl/triggerfinger/physics/PhysicsBody.kt:13-20 | a body at rest or falling keeps moving down the screen at every step of positive length |
| Motion.DampingShrinks | app/src/main/java/emi/uhl/triggerfinger/physics/PhysicsBody.kt:15-18 | for a time scale in [0, 1], damping keeps a factor in [0.99, 1] of each speed, so it never speeds a body up |
| Motion.SlowMotionDampingDiffers | app/src/main/java/emi/uhl/triggerfinger/physics/PhysicsBody.kt:4-18 | at the slow-motion scale 0.4 the shipped step keeps 99% of the spin where the game's scale would keep 99.6%, so the two steps differ |
| Motion.ImpulseIsForceOverMass | app/src/main/java/emi/uhl/triggerfinger/physics/PhysicsBody.kt:24-26 | `addForce` changes the velocity by force / mass: that change times the mass is the force |
| Collision.MaskIsSubset | app/src/main/java/emi/uhl/triggerfinger/physics/CollisionShape.kt:36-98 | the filter `layerMask == layerMask or other.isLayer` holds exactly when the other's layer bits are a subset of the mask |
| Collision.NoLayerPassesEveryMask | app/src/main/java/emi/uhl/triggerfinger/physics/CollisionShape.kt:18-36 | a shape on layer 0 (the default) passes every mask |
| Collision.SingleBitLayers | app/src/main/java/emi/uhl/triggerfinger/physics/CollisionShape.kt:36 | for the single-bit layers PLAYER, ENEMY and ENVIRONMENT the filter is an overlap test |
| Collision.RectsIntersectSymmetric | app/src/main/java/emi/uhl/triggerfinger/physics/CollisionShape.kt:99 | strict rectangle overlap does not depend on the order of the rectangles |
| Collision.CenteredRect | app/src/main/java/emi/uhl/triggerfinger/physics/CollisionShape.kt:72-77 | `rect` is width by height and centred on the owner's position |
| Collision.Clamp | app/src/main/java/emi/uhl/triggerfinger/physics/CollisionShape.kt:49-88 | `coerceIn` returns a value in the range: the value itself when inside, otherwise the nearer end |
| Collision.WithinDistanceIsDistance | app/src/main/java/emi/uhl/triggerfinger/physics/CollisionShape.kt:37-59 | the squared comparison agrees with `distance <= radius` on the actual distance |
| Collision.Placed.Bounds | app/src/main/java/emi/uhl/triggerfinger/physics/CollisionShape.kt:72-77 | a rectangle with non-negative sides has ordered edges |
| Collision.CollidesIffMaskAndTouching | app/src/main/java/emi/uhl/triggerfinger/physics/CollisionShape.kt:29-101 | `collidesWith(shape)` (dispatch on the other's kind over the four overloads) holds exactly when this mask accepts the other's layer and the shapes overlap; overlap is symmetric, so the two directions of a pair differ only through their masks |
| Collision.TouchingCirclesCollide | app/src/main/java/emi/uhl/triggerfinger/physics/CollisionShape.kt:35-39 | circles exactly r1 + r2 apart collide: the circle test is inclusive |
| Collision.GrazingCircleMissesRect | app/src/main/java/emi/uhl/triggerfinger/physics/CollisionShape.kt:41-56 | a circle whose radius just reaches a rectangle's side does not collide: the circle/rectangle test is strict |
| Collision.CentreInsideCollides | app/src/main/java/emi/uhl/triggerfinger/physics/CollisionShape.kt:41-47 | a circle whose centre lies in the rectangle collides whatever its radius, when the mask allows |
| Collision.GameLayers | app/src/main/java/emi/uhl/triggerfinger/physics/CollisionShape.kt:36 | the player's mask ENEMY rejects its own layer PLAYER, accepts pipes (ENEMY), and a pipe's mask 0 accepts neither |
| Animations.NextFrame | app/src/main/java/emi/uhl/triggerfinger/graphics/Animation.kt:28-35 | the `currentFrame` setter keeps the index on the animation; wrapping to 0 from a non-zero frame raises the end event and leaves the index where it was; the event never fires from frame 0 |
| Animations.AdvanceByOne | app/src/main/java/emi/uhl/triggerfinger/graphics/Animation.kt:28-68 | `currentFrame++` moves to the next frame until the last one, and from the last frame raises the end event and stays there |
| Animations.Advances | app/src/main/java/emi/uhl/triggerfinger/graphics/Animation.kt:28-68 | repeated single-frame advances keep the index on the animation: it stays in [0, frameCount) when it starts there, and is otherwise either the starting index or back in range |
| Animations.PlaysOnceThenSticks | app/src/main/java/emi/uhl/triggerfinger/graphics/Animation.kt:28-71 | from frame 0, n advances show frame min(n, frameCount - 1) with one end event per advance past the last frame: the animation sticks instead of wrapping |
| Animations.AdvancesLast | app/src/main/java/emi/uhl/triggerfinger/graphics/Animation.kt:28-68 | n + 1 advances are n advances followed by one more |
| Animations.Tick | app/src/main/java/emi/uhl/triggerfinger/graphics/Animation.kt:19-71 | one-frame animations are left alone; otherwise the timer accumulates, and only once it exceeds 1/24 s does the frame advance by one and the timer restart at 0 |
| Animations.FindRow | app/src/main/java/emi/uhl/triggerfinger/graphics/Animation.kt:41-47 | the row search returns the first row in the range holding the frame, or none when no row in the range holds it |
| Animations.RowAsWritten | app/src/main/java/emi/uhl/triggerfinger/graphics/Animation.kt:41-47 | the row search as written scans rows 0 to `rows` inclusive and returns a row holding the frame |
| Animations.RowOf | app/src/main/java/emi/uhl/triggerfinger/graphics/Animation.kt:41-47 | the search over the sheet's rows 0 to `rows - 1`: a row of the sheet holding the frame, or none when no row of the sheet holds it |
| Animations.InRowIsQuotient | app/src/main/java/emi/uhl/triggerfinger/graphics/Animation.kt:43 | a frame lies on exactly one row, the quotient of its index by the number of columns |
| Animations.RowOnValidSheet | app/src/main/java/emi/uhl/triggerfinger/graphics/Animation.kt:41-47 | for a frame on the sheet both searches find row frameIndex / columns |
| Animations.RowSearchOverrun | app/src/main/java/emi/uhl/triggerfinger/graphics/Animation.kt:42 | frame 8 of a one-row sheet 8 frames wide is reported on row 1, below the sheet, where the sheet's rows hold no such frame |
| Animations.FrameRect | app/src/main/java/emi/uhl/triggerfinger/graphics/Animation.kt:38-56 | the source rectangle is one frame in size, at column frameIndex % columns and at a row 0 to `rows` holding the frame, as the source's inclusive search finds it; there is none exactly where the source throws (no columns, or a frame on none of the searched rows) |
| Animations.Animation.constructor | app/src/main/java/emi/uhl/triggerfinger/graphics/Animation.kt:15-59 | a new animation keeps its sheet geometry (one row, as many columns as frames, unless given) and starts at frame 0 with a cleared timer |
| Animations.Animation.SetCurrentFrame | app/src/main/java/emi/uhl/triggerfinger/graphics/Animation.kt:28-35 | the setter changes the index and raises the event exactly as `NextFrame` says |
| Animations.Animation.Column | app/src/main/java/emi/uhl/triggerfinger/graphics/Animation.kt:38 | the column lies in [0, columns) and is frameIndex % columns |
| Animations.Animation.Row | app/src/main/java/emi/uhl/triggerfinger/graphics/Animation.kt:41-47 | the `while row <= rows` loop returns what the source's inclusive search `RowAsWritten` returns, including row `rows` one past the sheet |
| Animations.Animation.SourceRect | app/src/main/java/emi/uhl/triggerfinger/graphics/Animation.kt:50-56 | the rectangle computed is `FrameRect` of the current frame, so it may lie on row `rows` one past the sheet, as the source's does |
| Animations.Animation.Frame | app/src/main/java/emi/uhl/triggerfinger/graphics/Animation.kt:62 | `frame` cuts the source rectangle out of the sheet, one frame in size, and fails exactly where the rectangle does |
| Animations.Animation.Update | app/src/main/java/emi/uhl/triggerfinger/graphics/Animation.kt:64-71 | `update` moves index and timer as `Tick` says and keeps the index on the animation |
| Animations.Animation.HasFrame | app/src/main/java/emi/uhl/triggerfinger/graphics/Animation.kt:41-56 | when every frame lies on the sheet, the current frame has a rectangle, so `frame` does not throw |
| Animations.Animation.Reset | app/src/main/java/emi/uhl/triggerfinger/graphics/Animation.kt:73-76 | `reset` returns to frame 0 with a cleared timer |
| Animations.FrameRectOnSheet | app/src/main/java/emi/uhl/triggerfinger/graphics/Animation.kt:38-56 | on a sheet holding all frames, the rectangle of frame i is at column i % columns and row i / columns |
| LavaRules.Speed | app/src/main/java/emi/uhl/triggerfinger/gameObjects/LavaBehaviour.kt:32-39 | three times the minimum while the lava is above the player; otherwise at least the minimum, and either the minimum or the minimum scaled by the gap over 200 pixels |
| LavaRules.SpeedInUnits | app/src/main/java/emi/uhl/triggerfinger/LavaBehaviour.kt:22-29 | the older speed: three times the minimum above the player, otherwise never below the minimum |
| LavaRules.SpeedVersionsAgree | app/src/main/java/emi/uhl/triggerfinger/LavaBehaviour.kt:28 | the two versions of `speed` agree for every input, because `toUnits(y)` is y / 200 |
| LavaRules.SpeedGrowsWithGap | app/src/main/java/emi/uhl/triggerfinger/gameObjects/LavaBehaviour.kt:38 | below the player and with a non-negative minimum, the speed does not decrease as the gap grows |
| LavaRules.Rise | app/src/main/java/emi/uhl/triggerfinger/gameObjects/LavaBehaviour.kt:44 | `update` moves the lava up the screen by speed * deltaTime and keeps its x |
| LavaRules.AdvanceWave | app/src/main/java/emi/uhl/triggerfinger/gameObjects/LavaBehaviour.kt:48-50 | `updateOffset` advances the wave offset by exactly waveSpeed * deltaTime |
| PipeRules.DefaultGapIsThreeUnits | app/src/main/java/emi/uhl/triggerfinger/gameObjects/PipeSpawner.kt:20 | the default gap between the pipes of a pair is three units, 600 pixels |
| PipeRules.GapCentre | app/src/main/java/emi/uhl/triggerfinger/gameObjects/PipeSpawner.kt:58 | for a random draw in [0, 1), the gap centre lies in [0.35 H, 0.65 H), H the screen height |
| PipeRules.TopPipeSize | app/src/main/java/emi/uhl/triggerfinger/gameObjects/PipeSpawner.kt:64 | the top pipe's rectangle is the bitmap's size (sprite width by twice the origin's height) |
| PipeRules.BottomPipeSize | app/src/main/java/emi/uhl/triggerfinger/gameObjects/PipeSpawner.kt:81 | the bottom pipe's rectangle is the bitmap's size |
| PipeRules.PairGeometry | app/src/main/java/emi/uhl/triggerfinger/gameObjects/PipeSpawner.kt:64-87 | the lower edge of the top pipe and the upper edge of the bottom pipe are exactly `spaceTopBottom` apart and centred on the random offset, and both pipes start with their left edge at the screen's right edge |
| PipeRules.Scroll | app/src/main/java/emi/uhl/triggerfinger/gameObjects/PipeSpawner.kt:28 | each update moves a pipe left by pipeSpeed * deltaTime and keeps its y |
| BackgroundRules.Truncate | app/src/main/java/emi/uhl/triggerfinger/gameObjects/SeamlessBackground.kt:24 | `toInt()` truncates toward zero |
| BackgroundRules.Round | app/src/main/java/emi/uhl/triggerfinger/gameObjects/SeamlessBackground.kt:41 | `roundToInt()` is within one half of its argument, ties upward |
| BackgroundRules.Scroll | app/src/main/java/emi/uhl/triggerfinger/gameObjects/SeamlessBackground.kt:29-35 | `backgroundX` moves left by deltaTime * speed, and is reset to 0 once below -imageWidth, so it never ends below -imageWidth |
| BackgroundRules.ScrollStaysLeft | app/src/main/java/emi/uhl/triggerfinger/gameObjects/SeamlessBackground.kt:27-35 | from a start at or left of 0, with non-negative step and speed, `backgroundX` stays at or left of 0 |
| BackgroundRules.Tiles | app/src/main/java/emi/uhl/triggerfinger/gameObjects/SeamlessBackground.kt:41 | the tiles are drawn at round(backgroundX) + k * imageWidth for every such x below the screen width, and the last one reaches the screen's right edge |
| BackgroundRules.TilesCoverScreen | app/src/main/java/emi/uhl/triggerfinger/gameObjects/SeamlessBackground.kt:41-43 | from a start in [-imageWidth, 0], the tiles cover the whole screen width |
| PlayerRules.AmmoAfterShot | app/src/main/java/emi/uhl/triggerfinger/gameObjects/PlayerBehaviour.kt:38-45 | a shot that passes the guard spends exactly one round, a blocked one none, so a non-negative magazine never goes negative |
| PlayerRules.ShotsNeverOverdraw | app/src/main/java/emi/uhl/triggerfinger/gameObjects/PlayerBehaviour.kt:38-45 | without cooldown, n shots from k rounds leave k - n rounds, or 0 once the magazine is empty |
| PlayerRules.ShotOpposesFacing | app/src/main/java/emi/uhl/triggerfinger/gameObjects/PlayerBehaviour.kt:40-41 | the impulse of a shot is exactly opposite the facing direction |
| PlayerRules.ScaledShotImpulse | app/src/main/java/emi/uhl/triggerfinger/gameObjects/PlayerBehaviour.kt:41 | `-dir * shootForce * modifier` is one impulse of magnitude shootForce * modifier |
| PlayerRules.ShotMagnitude | app/src/main/java/emi/uhl/triggerfinger/gameObjects/PlayerBehaviour.kt:41 | a normal shot pushes with `shootForce`; a quick shot with a modifier of at least 1 pushes at least as hard |
| PlayerRules.LegacyShotMagnitude | app/src/main/java/emi/uhl/triggerfinger/PlayerBehaviour.kt:32 | the older player's shot pushes with 950, or 1500 exactly for a quick shot |
| PlayerRules.LegacyIsConfigured | app/src/main/java/emi/uhl/triggerfinger/PlayerBehaviour.kt:32 | the older player shoots as a configurable player with force 950 and quick-shot modifier 1500 / 950 |
| PlayerRules.SpinAfterShot | app/src/main/java/emi/uhl/triggerfinger/gameObjects/PlayerBehaviour.kt:43 | the spin after a shot is +4 pi when the sprite is flipped and -4 pi otherwise |
| PlayerRules.CoolDown | app/src/main/java/emi/uhl/triggerfinger/gameObjects/PlayerBehaviour.kt:56 | the timer is lowered by the step only while it is positive |
| PlayerRules.ReloadBlocksShooting | app/src/main/java/emi/uhl/triggerfinger/gameObjects/PlayerBehaviour.kt:29-56 | after a reload with penalty p, every run of updates shorter in total than p leaves the timer at p minus the time passed, so shooting stays blocked |
| PlayerRules.ClampToScreen | app/src/main/java/emi/uhl/triggerfinger/gameObjects/PlayerBehaviour.kt:60-70 | x is clamped into [width, screenWidth - width], the right margin checked first, and a bounce is reported exactly when a margin was crossed |
| PlayerRules.ClampIsIdempotent | app/src/main/java/emi/uhl/triggerfinger/gameObjects/PlayerBehaviour.kt:60-70 | a position the edge check has clamped is left where it is by the next check |
| PlayerRules.BounceVelocity | app/src/main/java/emi/uhl/triggerfinger/gameObjects/PlayerBehaviour.kt:72-73 | a bounce reverses the horizontal speed at half speed and keeps 70% of the vertical speed, same sign |
| PlayerRules.BounceSpin | app/src/main/java/emi/uhl/triggerfinger/gameObjects/PlayerBehaviour.kt:74 | a bounce reverses the spin |
| PlayerRules.BounceTurnsBack | app/src/main/java/emi/uhl/triggerfinger/gameObjects/PlayerBehaviour.kt:60-75 | a player leaving past a margin moves back into the screen after the bounce |
| Legacy.PlayerBehaviour.constructor | app/src/main/java/emi/uhl/triggerfinger/PlayerBehaviour.kt:11-20 | the older player starts with no references, a full magazine by default, the 0.9 s default penalty and no cooldown |
| Legacy.PlayerBehaviour.Initialize | app/src/main/java/emi/uhl/triggerfinger/PlayerBehaviour.kt:22-26 | the body, sprite and animator are looked up on the owning object; it succeeds exactly when all three are there |
| Legacy.PlayerBehaviour.Shoot | app/src/main/java/emi/uhl/triggerfinger/PlayerBehaviour.kt:28-39 | with a round left and no cooldown, the body gets an impulse of 1500 (quick) or 950 opposite the facing, the spin is set by the sprite's flip, one round is spent and the shot animation replaces the held one (which is reset); otherwise nothing changes |
| Legacy.PlayerBehaviour.Kick | app/src/main/java/emi/uhl/triggerfinger/PlayerBehaviour.kt:31-34 | the force and the spin of a shot |
| Legacy.PlayerBehaviour.Reload | app/src/main/java/emi/uhl/triggerfinger/PlayerBehaviour.kt:41-44 | a full magazine and the penalty on the timer, so a positive penalty blocks the next shot |
| Legacy.PlayerBehaviour.Update | app/src/main/java/emi/uhl/triggerfinger/PlayerBehaviour.kt:46-67 | the cooldown counts down, the sprite faces by the screen half before the clamp, and x is clamped into the screen with the bounce factors applied only on a clamp |
| Legacy.LavaBehaviour.constructor | app/src/main/java/emi/uhl/triggerfinger/LavaBehaviour.kt:8-31 | the older lava starts unattached with the default wave speed 12.5 and offset 0 |
| Legacy.LavaBehaviour.Update | app/src/main/java/emi/uhl/triggerfinger/LavaBehaviour.kt:33-36 | the lava rises by the speed measured in units, which is the newer version's speed, and the wave advances as `updateOffset` does |
| Legacy.LavaBehaviour.UpdateOffset | app/src/main/java/emi/uhl/triggerfinger/LavaBehaviour.kt:38-40 | only the wave offset changes, by waveSpeed * deltaTime |
| Touch.Duration | app/src/main/java/emi/uhl/triggerfinger/TouchEventHandler.kt:40-44 | the duration in seconds times 1000 is the milliseconds since the touch started, and is never negative for a clock that does not run backwards |
| Touch.FarFromStartIsDistance | app/src/main/java/emi/uhl/triggerfinger/TouchEventHandler.kt:33 | the squared drag test agrees with `distance(point, start) > 15` on the actual distance |
| Touch.ScaleAfterCases | app/src/main/java/emi/uhl/triggerfinger/TouchEventHandler.kt:48 | after a touch start the time scale is the old one or the scale of a slow-motion handler whose mode is playing and whose player has a round and no cooldown; when no handler acts it is unchanged |
| Touch.ShotsFollowHandlers | app/src/main/java/emi/uhl/triggerfinger/TouchEventHandler.kt:51 | a release makes every shooting handler shoot once, in list order, and nothing else shoots |
| Touch.ShotsSeeRelease | app/src/main/java/emi/uhl/triggerfinger/TouchEventHandler.kt:43-51 | handlers after the built-in one see the finished duration: a shot is quick exactly when the finished touch was under 0.2 s and not a drag |
| Touch.ModesSeeFinishedTouch | app/src/main/java/emi/uhl/triggerfinger/TouchEventHandler.kt:43-51 | with the built-in handler first, as registered, the modes' shots are classified by the finished touch, not the last hold |
| Touch.TouchEventHandler.constructor | app/src/main/java/emi/uhl/triggerfinger/TouchEventHandler.kt:13-46 | the duration starts at -1, no drag and no touch, no points recorded, and each event list holds only its built-in handler |
| Touch.TouchEventHandler.AddStartHandler | app/src/main/java/emi/uhl/triggerfinger/TouchEventHandler.kt:22 | `touchStartEvent.add` appends at the end and changes nothing else |
| Touch.TouchEventHandler.AddEndHandler | app/src/main/java/emi/uhl/triggerfinger/TouchEventHandler.kt:43 | `touchEndEvent.add` appends at the end and changes nothing else |
| Touch.TouchEventHandler.OnTouchStart | app/src/main/java/emi/uhl/triggerfinger/TouchEventHandler.kt:22-48 | the built-in handler records the time and the point and starts a fresh, undragged touch; the time scale is what the start handlers leave, in list order |
| Touch.TouchEventHandler.StartStep | app/src/main/java/emi/uhl/triggerfinger/TouchEventHandler.kt:22-30 | one start handler: the built-in one records the touch, a slow-motion one sets its scale only when its mode is playing and its player can shoot |
| Touch.TouchEventHandler.OnTouchDrag | app/src/main/java/emi/uhl/triggerfinger/TouchEventHandler.kt:32-49 | a drag is marked once the point is more than 15 pixels from the start and is never cleared, and the point is recorded; it fails (changing nothing) exactly where the unset start point makes the source throw |
| Touch.TouchEventHandler.OnTouchHold | app/src/main/java/emi/uhl/triggerfinger/TouchEventHandler.kt:39-50 | the duration becomes the time since the start and no flag changes; it fails exactly where the unset last point makes the source throw |
| Touch.TouchEventHandler.OnTouchEnd | app/src/main/java/emi/uhl/triggerfinger/TouchEventHandler.kt:43-51 | the built-in handler records the duration and ends the touch; the shots are as `Shots` says, a shooting handler leaves the time scale at 1, and with a single shooting handler its player spends a round and its body is kicked exactly as a refused or fired shot does (`LoneShot`) |
| Touch.TouchEventHandler.RunEndHandlers | app/src/main/java/emi/uhl/triggerfinger/TouchEventHandler.kt:51 | the release handlers run in list order with the shots `Shots` describes; the duration is recorded when the built-in handler is listed, the time scale is 1 when a shooter is; with a single shooter its round and its body's kick are as `LoneShot` says |
| Touch.TouchEventHandler.EndStep | app/src/main/java/emi/uhl/triggerfinger/TouchEventHandler.kt:43-46 | one release handler: the built-in one records the duration and ends the touch, leaving the scale; a shooting one shoots with the quick flag of the touch it sees, sets the scale to 1, and spends a round and kicks its body as `LoneShot` says |
| Touch.TouchEventHandler.RecordRelease | app/src/main/java/emi/uhl/triggerfinger/TouchEventHandler.kt:43-46 | the touch lasted until now and is over |
| Touch.TouchEventHandler.RecordThenRest | app/src/main/java/emi/uhl/triggerfinger/TouchEventHandler.kt:43-51 | the built-in handler first, then the rest of the list: the whole list's shots, the duration recorded and the touch over, and a lone shooter's shot as `LoneShot` says |
| Touch.TouchEventHandler.ShootThenRest | app/src/main/java/emi/uhl/triggerfinger/TouchEventHandler.kt:51 | a shooter first and more shooters after it: the whole list's shots in order and the time scale at 1 |
| Touch.TouchEventHandler.ShootAlone | app/src/main/java/emi/uhl/triggerfinger/TouchEventHandler.kt:51 | a shooter first and no other shooter after it: its one shot is quick as the touch it sees says, its round and kick are as `LoneShot` says, and a later built-in handler still records the release |
| Touch.TouchEventHandler.Shoot | app/src/main/java/emi/uhl/triggerfinger/game/EndlessMode.kt:87-91 | a mode's handler invoked on release: the shot is quick exactly when the touch lasted under 0.2 s and was not a drag, the scale returns to 1, and the round and kick are as `LoneShot` says |
| Touch.TouchEventHandler.RecordEnds | app/src/main/java/emi/uhl/triggerfinger/TouchEventHandler.kt:43-46 | a list with no shooter records the release exactly when it holds the built-in handler, and otherwise leaves duration and touch as they were |
| Touch.LoneShooterFirst | app/src/main/java/emi/uhl/triggerfinger/TouchEventHandler.kt:51 | with a single shooting handler at the head of the list, the shots are that one player's shot and no later handler shoots |
| Touch.RecordFirst | app/src/main/java/emi/uhl/triggerfinger/TouchEventHandler.kt:43-51 | with the built-in handler at the head, the shooters and the shots are those of the rest of the list |
| Touch.Release | app/src/main/java/emi/uhl/triggerfinger/game/EndlessMode.kt:87-91 | a mode's release handler shoots its player, spending a round exactly when the guard passes, kicks the body opposite its facing with the flip's spin when it fires and leaves it alone otherwise, and sets the time scale to 1 |
| Entities.Component.Attach | app/src/main/java/emi/uhl/triggerfinger/gameObjects/GameObject.kt:50 | after attaching, the component's back-reference is the object it was added to, whatever its class |
| Entities.Component.Initialize | app/src/main/java/emi/uhl/triggerfinger/gameObjects/Component.kt:16 | the animator succeeds exactly when its object has a sprite and then holds that sprite; the player succeeds exactly when body, sprite and animator are all present and then holds the first of each; every other class succeeds and does nothing |
| Entities.Component.Update | app/src/main/java/emi/uhl/triggerfinger/gameObjects/Component.kt:17 | the update of the component's class has the effect its own class states: the animator ticks and shows its frame, the body takes one motion step, the player cools down, turns and is clamped with a bounce, the lava rises and its wave advances, the background scrolls with wrap, the spawner scrolls, prunes with a point each and spawns the pair it returns; the sprite and the shape change nothing; only the spawner adds objects, fresh ones, and mode lists never shrink |
| Entities.Component.UpdateInPlace | app/src/main/java/emi/uhl/triggerfinger/gameObjects/Component.kt:17 | every class but the spawner: the same per-class effects, with the world's objects and the modes' lists and scores left alone |
| Entities.ShootStep | app/src/main/java/emi/uhl/triggerfinger/gameObjects/PlayerBehaviour.kt:37-48 | a shot inside a live scene leaves it live; it fires exactly when the player has ammunition and no cooldown, the magazine ends as the shot rule says, and when it fires the body's velocity gains the kick opposite the facing divided by the mass and its spin becomes the flip's spin, while a refused shot leaves both as they were |
| Entities.FirstOfKind | app/src/main/java/emi/uhl/triggerfinger/gameObjects/GameObject.kt:41 | the index found holds a component of the kind and no earlier one does; none is found exactly when no component has the kind |
| Entities.RemoveFirst | app/src/main/java/emi/uhl/triggerfinger/gameObjects/PipeSpawner.kt:42 | removing an absent element leaves the list as it is; removing a present one shortens it by exactly one |
| Entities.RemoveFirstAt | app/src/main/java/emi/uhl/triggerfinger/gameObjects/PipeSpawner.kt:42 | in a list without repetitions, removing the element found at position i removes exactly that position |
| Entities.Survivors | app/src/main/java/emi/uhl/triggerfinger/gameObjects/PipeSpawner.kt:38-45 | the pipes left after clean-up are among the old ones and none of them is destroyed |
| Entities.SurvivorsKeep | app/src/main/java/emi/uhl/triggerfinger/gameObjects/PipeSpawner.kt:38-45 | every pipe that is not destroyed survives the clean-up |
| Entities.SurvivorsAppend | app/src/main/java/emi/uhl/triggerfinger/gameObjects/PipeSpawner.kt:38-45 | cleaning up a concatenation is cleaning up each part |
| Entities.SurvivorsDistinct | app/src/main/java/emi/uhl/triggerfinger/gameObjects/PipeSpawner.kt:38-45 | the clean-up never introduces a repetition |
| Entities.CompactStep | app/src/main/java/emi/uhl/triggerfinger/gameObjects/PipeSpawner.kt:38-45 | one step of the backwards removal loop extends the compacted suffix by one position, whether the pipe there is removed or kept |
| Entities.GameObject.constructor | app/src/main/java/emi/uhl/triggerfinger/gameObjects/GameObject.kt:14-35 | a new object has its name and layer, no components, the zero transform and is not destroyed |
| Entities.GameObject.GetComponent | app/src/main/java/emi/uhl/triggerfinger/gameObjects/GameObject.kt:41 | the answer is the first component of the requested class in list order, and it is absent exactly when no component has that class |
| Entities.GameObject.AddComponent | app/src/main/java/emi/uhl/triggerfinger/gameObjects/GameObject.kt:48-57 | the component is appended, points back at the object, and is initialized, with the same success conditions as its class's initialize |
| Entities.GameObject.DrawnComponents | app/src/main/java/emi/uhl/triggerfinger/gameObjects/GameObject.kt:67 | all components draw on the object's own layer and none on another |
| Entities.GameObject.Update | app/src/main/java/emi/uhl/triggerfinger/gameObjects/GameObject.kt:62 | updating every component in turn keeps the scene wired and live, only adds fresh objects, and never shortens a mode's object list |
| Entities.UpdateComponents | app/src/main/java/emi/uhl/triggerfinger/gameObjects/GameObject.kt:62 | the same for any list of components updated in order |
| Entities.Builder.constructor | app/src/main/java/emi/uhl/triggerfinger/gameObjects/GameObject.kt:18-19 | the builder starts from a fresh object with the given name and layer, no components and the zero transform |
| Entities.Builder.WithTransform | app/src/main/java/emi/uhl/triggerfinger/gameObjects/GameObject.kt:22-25 | sets exactly position and rotation and returns the same builder |
| Entities.Builder.WithComponent | app/src/main/java/emi/uhl/triggerfinger/gameObjects/GameObject.kt:28 | behaves as addComponent on the object under construction and returns the same builder |
| Entities.Builder.Build | app/src/main/java/emi/uhl/triggerfinger/gameObjects/GameObject.kt:29 | returns the object built so far |
| Entities.Sprite.constructor | app/src/main/java/emi/uhl/triggerfinger/graphics/Sprite.kt:9-12 | a sprite holds its bitmap, scale and flip flags, unattached |
| Entities.Sprite.Size | app/src/main/java/emi/uhl/triggerfinger/graphics/Sprite.kt:17 | at scale 1 the size is the bitmap's width and height |
| Entities.Sprite.Origin | app/src/main/java/emi/uhl/triggerfinger/graphics/Sprite.kt:14 | the origin is exactly half the size |
| Entities.Animator.constructor | app/src/main/java/emi/uhl/triggerfinger/graphics/Animator.kt:6-13 | a new animator has no sprite and no animation |
| Entities.Animator.Initialize | app/src/main/java/emi/uhl/triggerfinger/graphics/Animator.kt:19-21 | succeeds exactly when the object has a sprite, and then holds the object's first sprite |
| Entities.Animator.SetAnimation | app/src/main/java/emi/uhl/triggerfinger/graphics/Animator.kt:13-17 | the animation held before is reset to its first frame; the new one is held, with its own state kept unless it is the same one |
| Entities.Animator.Update | app/src/main/java/emi/uhl/triggerfinger/graphics/Animator.kt:23-26 | without an animation the sprite is unchanged; with one, the animation ticks once, stays in range, and the sprite shows the sheet region of its current frame |
| Entities.CollisionShape.constructor | app/src/main/java/emi/uhl/triggerfinger/physics/CollisionShape.kt:17-70 | a new shape has its geometry, mask and layer and no callbacks |
| Entities.CollisionShape.CollidesWith | app/src/main/java/emi/uhl/triggerfinger/physics/CollisionShape.kt:29-101 | two shapes collide exactly when this shape's mask accepts the other's layer and the placed shapes touch |
| Entities.CollisionShape.Contains | app/src/main/java/emi/uhl/triggerfinger/physics/CollisionShape.kt:59-104 | a circle contains the points within its radius of its centre; a rectangle contains the points of its bounds |
| Entities.CollisionShape.AddCallback | app/src/main/java/emi/uhl/triggerfinger/physics/CollisionShape.kt:19 | the callback is appended to the list |
| Entities.CollisionShape.OnCollision | app/src/main/java/emi/uhl/triggerfinger/physics/CollisionShape.kt:22 | every registered callback runs once, in registration order, with the other object, and each targeted mode ends in GAME_OVER |
| Entities.PhysicsBody.constructor | app/src/main/java/emi/uhl/triggerfinger/physics/PhysicsBody.kt:7-11 | a new body holds the given velocity, spin, flags and mass |
| Entities.PhysicsBody.Update | app/src/main/java/emi/uhl/triggerfinger/physics/PhysicsBody.kt:4-22 | position, rotation, velocity and spin become exactly one motion step of the body's old state, damped at the root-package time scale 1.0 that the shipped body reads, not at the modes' slow-motion scale |
| Entities.PhysicsBody.AddForce | app/src/main/java/emi/uhl/triggerfinger/physics/PhysicsBody.kt:24-26 | velocity gains force / mass, as the impulse rule says |
| Entities.PhysicsBody.AddAngleForce | app/src/main/java/emi/uhl/triggerfinger/physics/PhysicsBody.kt:28-30 | spin gains exactly the amount |
| Entities.PlayerBehaviour.constructor | app/src/main/java/emi/uhl/triggerfinger/gameObjects/PlayerBehaviour.kt:17-28 | the defaults 900, 1.8 and 0.6 apply, the magazine starts as given and the timer at zero |
| Entities.PlayerBehaviour.Initialize | app/src/main/java/emi/uhl/triggerfinger/gameObjects/PlayerBehaviour.kt:31-35 | succeeds exactly when body, sprite and animator are all present, and then holds the first of each |
| Entities.PlayerBehaviour.ShotMagnitude | app/src/main/java/emi/uhl/triggerfinger/gameObjects/PlayerBehaviour.kt:41 | a normal shot pushes with shootForce |
| Entities.PlayerBehaviour.Shoot | app/src/main/java/emi/uhl/triggerfinger/gameObjects/PlayerBehaviour.kt:37-48 | fires exactly when a round is left and no cooldown runs; a shot pushes opposite the facing, sets the spin by the flip, spends one round and starts the shot animation; a refused shot changes nothing |
| Entities.PlayerBehaviour.Fire | app/src/main/java/emi/uhl/triggerfinger/gameObjects/PlayerBehaviour.kt:40-47 | past the guard: the kick, one round less, and the shot animation with the previous one reset |
| Entities.PlayerBehaviour.Kick | app/src/main/java/emi/uhl/triggerfinger/gameObjects/PlayerBehaviour.kt:40-43 | the body receives the impulse opposite the facing with the shot's magnitude, and spins by the sprite's flip |
| Entities.PlayerBehaviour.Reload | app/src/main/java/emi/uhl/triggerfinger/gameObjects/PlayerBehaviour.kt:50-53 | a full magazine and the penalty timer; with a positive penalty the player cannot shoot right after |
| Entities.PlayerBehaviour.Update | app/src/main/java/emi/uhl/triggerfinger/gameObjects/PlayerBehaviour.kt:55-76 | the cooldown counts down, the sprite faces by the screen half, x is clamped into the screen, and a clamp bounces velocity and spin while no clamp leaves them |
| Entities.LavaBehaviour.constructor | app/src/main/java/emi/uhl/triggerfinger/gameObjects/LavaBehaviour.kt:8-41 | wave speed defaults to 12.5 and the wave offset starts at zero |
| Entities.LavaBehaviour.Update | app/src/main/java/emi/uhl/triggerfinger/gameObjects/LavaBehaviour.kt:32-46 | the lava rises by the speed rule taken before the move, and the wave advances |
| Entities.LavaBehaviour.UpdateOffset | app/src/main/java/emi/uhl/triggerfinger/gameObjects/LavaBehaviour.kt:48-50 | only the wave offset changes, by waveSpeed * deltaTime |
| Entities.PipeSpawner.constructor | app/src/main/java/emi/uhl/triggerfinger/gameObjects/PipeSpawner.kt:16-23 | no pipes yet, and the distance counter starts at spawnDistance so the first update spawns |
| Entities.PipeSpawner.Update | app/src/main/java/emi/uhl/triggerfinger/gameObjects/PipeSpawner.kt:25-52 | every pipe scrolls and is flagged once past the left edge; flagged pipes leave the list, one point each; past the spawn distance a top and bottom pipe at the random gap are appended to both lists and the counter resets, otherwise the counter grows; the scene stays wired and live |
| Entities.PipeSpawner.MaybeSpawn | app/src/main/java/emi/uhl/triggerfinger/gameObjects/PipeSpawner.kt:47-51 | past spawnDistance plus a pipe width the counter resets and exactly two pipes are appended; otherwise nothing changes |
| Entities.PipeSpawner.Advance | app/src/main/java/emi/uhl/triggerfinger/gameObjects/PipeSpawner.kt:27-45 | the scroll, the distance count and the clean-up, with the score raised by the number of pipes removed |
| Entities.PipeSpawner.Scroll | app/src/main/java/emi/uhl/triggerfinger/gameObjects/PipeSpawner.kt:27-35 | pipes scroll and are flagged, and the distance grows by pipeSpeed * deltaTime |
| Entities.PipeSpawner.Prune | app/src/main/java/emi/uhl/triggerfinger/gameObjects/PipeSpawner.kt:38-45 | the pipe list becomes its survivors and the score rises by the number removed, keeping the scene live |
| Entities.PipeSpawner.MovePipes | app/src/main/java/emi/uhl/triggerfinger/gameObjects/PipeSpawner.kt:27-33 | every pipe moves left by pipeSpeed * deltaTime and is destroyed exactly when it was already or is now off screen |
| Entities.PipeSpawner.RemoveDestroyed | app/src/main/java/emi/uhl/triggerfinger/gameObjects/PipeSpawner.kt:38-45 | the backwards loop leaves exactly the surviving pipes in order and adds one point per removed pipe |
| Entities.PipeSpawner.CreatePipes | app/src/main/java/emi/uhl/triggerfinger/gameObjects/PipeSpawner.kt:57-94 | two fresh distinct pipes, the top one flipped, placed around the random gap centre, are appended to the pipe list and the mode's objects, and the scene stays wired and live |
| Entities.PipeSpawner.BuildPipes | app/src/main/java/emi/uhl/triggerfinger/gameObjects/PipeSpawner.kt:58-89 | both pipes are built at the top and bottom positions of the gap, each with a sprite then a rectangle |
| Entities.PipeSpawner.AddPipes | app/src/main/java/emi/uhl/triggerfinger/gameObjects/PipeSpawner.kt:74-92 | both pipes are appended to both lists, which stay free of repetition, and the scene grows by them |
| Entities.PipeSpawner.NewPipe | app/src/main/java/emi/uhl/triggerfinger/gameObjects/PipeSpawner.kt:61-89 | a pipe object on the middle layer with its sprite (flipped for the top one) and a rectangle on the ENEMY layer, at the position |
| Entities.PipeSpawner.AssemblePipe | app/src/main/java/emi/uhl/triggerfinger/gameObjects/PipeSpawner.kt:66-89 | the builder chain yields an object holding the sprite then the shape, at the position with no rotation |
| Entities.SeamlessBackground.constructor | app/src/main/java/emi/uhl/triggerfinger/gameObjects/SeamlessBackground.kt:13-27 | the image is rescaled to exactly the screen height with proportional truncated width, and the scroll starts at zero |
| Entities.SeamlessBackground.Update | app/src/main/java/emi/uhl/triggerfinger/gameObjects/SeamlessBackground.kt:29-35 | the scroll moves left by deltaTime * speed and wraps to zero once past one image width |
| Entities.SeamlessBackground.TilePositions | app/src/main/java/emi/uhl/triggerfinger/gameObjects/SeamlessBackground.kt:40-44 | tiles are one image width apart from the rounded scroll position and all start on screen; none exist exactly when the width is not positive, and when the scroll is in range they cover the whole screen |
| Entities.GameMode.constructor | app/src/main/java/emi/uhl/triggerfinger/game/GameMode.kt:16-51 | the display size is recorded in the game's globals, and the mode starts paused, stopped, with score 0 and no objects |
| Entities.GameMode.DeltaTime | app/src/main/java/emi/uhl/triggerfinger/game/GameMode.kt:23 | the step in seconds is the milliseconds since the last frame divided by 1000, and is non-negative when time moves forward |
| Entities.GameMode.ScaledDeltaTime | app/src/main/java/emi/uhl/triggerfinger/game/GameMode.kt:24 | at time scale 1 the scaled step equals the step, and a scale within [0, 1] never lengthens it |
| Entities.GameMode.BaseUpdate | app/src/main/java/emi/uhl/triggerfinger/game/GameMode.kt:77-79 | the frame time is recorded, so the next step is measured from now |
| Entities.GameMode.AddGameObject | app/src/main/java/emi/uhl/triggerfinger/game/GameMode.kt:86-88 | the object is appended to the scene |
| Entities.GameMode.Resume | app/src/main/java/emi/uhl/triggerfinger/game/GameMode.kt:90-96 | running again, with the step measured from now |
| Entities.GameMode.Pause | app/src/main/java/emi/uhl/triggerfinger/game/GameMode.kt:98-103 | the loop flag is cleared |
| Scene.FiredAppend | app/src/main/java/emi/uhl/triggerfinger/game/FlappyMode.kt:114-128 | the modes set to game over by two runs of callbacks in sequence are those set by either |
| Scene.FiredSingle | app/src/main/java/emi/uhl/triggerfinger/game/FlappyMode.kt:121-125 | one callback run sets exactly the modes it names |
| Scene.PairFiredMatchesCalls | app/src/main/java/emi/uhl/triggerfinger/game/FlappyMode.kt:120-126 | the modes a pair sets to game over are exactly those named by the callback lists the pair runs |
| Scene.HitPairsAgree | app/src/main/java/emi/uhl/triggerfinger/game/FlappyMode.kt:120-124 | the table of hitting pairs agrees with the collision test on every pair of shaped positions |
| Scene.FiredAtAgrees | app/src/main/java/emi/uhl/triggerfinger/game/FlappyMode.kt:118-126 | for an agreeing hit table, a pair sets what its two collision tests say, and nothing when either object has no shape |
| Scene.RowRestSource | app/src/main/java/emi/uhl/triggerfinger/game/FlappyMode.kt:117-127 | a mode set by the rest of a row is set by one pair of that rest |
| Scene.RowRestMade | app/src/main/java/emi/uhl/triggerfinger/game/FlappyMode.kt:117-127 | a mode set by a pair of the row at or after column j is set by the rest of the row from j |
| Scene.PassRestSource | app/src/main/java/emi/uhl/triggerfinger/game/FlappyMode.kt:114-128 | a mode set by the remaining rows is set by one pair (i, k) with i before the last position and k at or after i |
| Scene.PassRestMade | app/src/main/java/emi/uhl/triggerfinger/game/FlappyMode.kt:114-128 | conversely, any such pair's mode is set by the remaining rows |
| Scene.FiredExactly | app/src/main/java/emi/uhl/triggerfinger/game/FlappyMode.kt:114-128 | the pass sets a mode to game over exactly when some pair (i, j) with i < n - 1 and i <= j < n sets it: each row starts at its own position and the last position starts none |
| Scene.SelfPairTested | app/src/main/java/emi/uhl/triggerfinger/game/FlappyMode.kt:114-117 | every position but the last is tested against itself, so a shape hitting itself there fires its callbacks |
| Scene.LastSelfPairSkipped | app/src/main/java/emi/uhl/triggerfinger/game/FlappyMode.kt:114 | with a single object there is no row at all, so nothing fires |
| Scene.SecondShapeGetsItsOwnObject | app/src/main/java/emi/uhl/triggerfinger/game/FlappyMode.kt:124-126 | when only the later shape hits, its callbacks receive its own object rather than the one it hit, and only its modes are set |
| Scene.TwoShapePass | app/src/main/java/emi/uhl/triggerfinger/game/FlappyMode.kt:114-117 | with two positions the pass is the first one's self-pair and the pair of the two |
| Scene.PlayerSelfPairSilent | app/src/main/java/emi/uhl/triggerfinger/game/FlappyMode.kt:50 | the player's circle (mask ENEMY, layer PLAYER) never collides with itself, so its self-pair runs no callback |
| Scene.LeaderHitFires | app/src/main/java/emi/uhl/triggerfinger/game/FlappyMode.kt:114-122 | a shape before the last that hits a shape at or after it sets its callbacks' modes to game over |
| Scene.NoShapeNoRow | app/src/main/java/emi/uhl/triggerfinger/game/FlappyMode.kt:115 | a row whose object has no shape is skipped and sets nothing |
| Scene.Snapshot | app/src/main/java/emi/uhl/triggerfinger/game/FlappyMode.kt:115-118 | records, position by position, the shape each object offers the pass |
| Scene.UpdateObjects | app/src/main/java/emi/uhl/triggerfinger/game/FlappyMode.kt:109-111 | updating the snapshot's objects keeps the scene wired and live, adds only fresh objects, never shortens a mode's list and changes no game state |
| Scene.UpdateFirst | app/src/main/java/emi/uhl/triggerfinger/game/FlappyMode.kt:109-111 | the first object of the snapshot, then the rest: the scene stays wired and live, only fresh objects are added and no mode's list shrinks |
| Scene.WiredShapesReady | app/src/main/java/emi/uhl/triggerfinger/game/FlappyMode.kt:115-125 | in a wired scene every attached shape is tracked, points back at its object and is ready to be tested |
| Scene.Invoke | app/src/main/java/emi/uhl/triggerfinger/game/FlappyMode.kt:121-125 | running a shape's callbacks adds the modes they name to those over, and leaves the rest as they were |
| Scene.CollidePair | app/src/main/java/emi/uhl/triggerfinger/game/FlappyMode.kt:120-126 | the pair runs exactly the calls the two tests select, in order, and sets exactly the pair's modes |
| Scene.CollideRow | app/src/main/java/emi/uhl/triggerfinger/game/FlappyMode.kt:117-127 | the row from column j sets exactly the modes of its remaining pairs |
| Scene.RowStep | app/src/main/java/emi/uhl/triggerfinger/game/FlappyMode.kt:118-126 | one pair of a row, skipped when the other object has no shape |
| Scene.CollideRows | app/src/main/java/emi/uhl/triggerfinger/game/FlappyMode.kt:114-128 | the rows from i on set exactly the modes of their pairs |
| Scene.CollisionPass | app/src/main/java/emi/uhl/triggerfinger/game/FlappyMode.kt:114-128 | after the pass each mode is GAME_OVER if some tested pair fires it and otherwise keeps its state |
| Scene.Compact | app/src/main/java/emi/uhl/triggerfinger/game/FlappyMode.kt:131-137 | the backwards removal loop leaves exactly the objects that are not destroyed, in order |
| Scene.RemoveDestroyed | app/src/main/java/emi/uhl/triggerfinger/game/FlappyMode.kt:131-137 | an object stays on the list exactly when it was on it and is not destroyed, and the scene stays wired and live |
| Scene.CollideAndCompact | app/src/main/java/emi/uhl/triggerfinger/game/FlappyMode.kt:114-137 | the collision pass over the list, then its compaction |
| Scene.PlayingStep | app/src/main/java/emi/uhl/triggerfinger/game/EndlessMode.kt:104-130 | the shared playing step: updates, then a pass over the list as the updates left it (so new pipes take part), then compaction; the scene stays sound and each mode ends GAME_OVER exactly when a tested pair fires it |
| Modes.GunSprite | app/src/main/java/emi/uhl/triggerfinger/game/EndlessMode.kt:42 | the gun sprite is a 64 by 48 region of the sheet |
| Modes.BuildPlayer | app/src/main/java/emi/uhl/triggerfinger/game/EndlessMode.kt:44-64 | the player object holds sprite, animator, collision circle, body and behaviour in that order, each pointing back at it; the animator found the sprite and the behaviour found its siblings; the circle tests ENEMY on layer PLAYER with radius 94 and one game-over callback for the mode; the 8-frame shot animation starts at frame 0 |
| Modes.MakeParts | app/src/main/java/emi/uhl/triggerfinger/game/EndlessMode.kt:44-60 | the unattached parts with the constants both modes pass (scale 4.5, flipped sprite, default body, 0.6 s reload penalty) |
| Modes.Assemble | app/src/main/java/emi/uhl/triggerfinger/game/EndlessMode.kt:48-64 | the builder chain attaches the parts in order and then sets position and rotation |
| Modes.AttachAll | app/src/main/java/emi/uhl/triggerfinger/game/EndlessMode.kt:49-60 | attaching in this order leaves the component list in that order with every sibling link resolved |
| Modes.AttachLooks | app/src/main/java/emi/uhl/triggerfinger/game/EndlessMode.kt:49-50 | the sprite goes first, so the animator's initialize finds it |
| Modes.AttachPhysics | app/src/main/java/emi/uhl/triggerfinger/game/EndlessMode.kt:51-56 | the circle and then the body are appended and point back at the player |
| Modes.AttachBehaviour | app/src/main/java/emi/uhl/triggerfinger/game/EndlessMode.kt:57-60 | attached last, the behaviour finds the sprite, animator and body added before it |
| Modes.PlayerShape | app/src/main/java/emi/uhl/triggerfinger/game/EndlessMode.kt:51-55 | for the 288 by 216 sprite the circle's radius is max(288, 216) / 2 - 50 = 94, on layer PLAYER testing ENEMY, with one callback that sets the mode to GAME_OVER |
| Modes.Dispatch | app/src/main/java/emi/uhl/triggerfinger/game/EndlessMode.kt:200-236 | a press starts a paused game before the start handlers run and starts the touch; a move drags; a release ends the touch, yields the shots its handlers ask for and, with a single shooter, spends its round and kicks its body as `LoneShot` says; only a release touches the shooters' bodies and rounds; any other action is unhandled and changes nothing |
| Modes.Press | app/src/main/java/emi/uhl/triggerfinger/game/EndlessMode.kt:205-213 | a paused game becomes playing before the touch starts, so a slow-motion handler already sees it playing |
| Modes.Resume | app/src/main/java/emi/uhl/triggerfinger/game/EndlessMode.kt:206 | a paused game becomes playing; any other state is kept |
| Modes.StartTouch | app/src/main/java/emi/uhl/triggerfinger/game/EndlessMode.kt:208-211 | the touch starts as `OnTouchStart` says: the point and time recorded and the scale left by the start handlers |
| Modes.OwnStartHandler | app/src/main/java/emi/uhl/triggerfinger/game/EndlessMode.kt:80-85 | with the mode's own start handler, a press slows time to the mode's scale exactly when the game is playing and the player has a round and no cooldown |
| Modes.OwnEndHandler | app/src/main/java/emi/uhl/triggerfinger/game/EndlessMode.kt:87-91 | with the mode's own end handler, a release asks for exactly one shot, quick exactly when the touch was short and not a drag, and resets the time scale |
| Flappy.Half | app/src/main/java/emi/uhl/triggerfinger/game/FlappyMode.kt:62 | Kotlin's integer halving rounds toward zero: for non-negative n, 2r <= n <= 2r + 1; for negative n, 2r - 1 <= n <= 2r |
| Flappy.Fall | app/src/main/java/emi/uhl/triggerfinger/game/FlappyMode.kt:148-151 | after the game is over the player keeps its x, and with a positive screen height and step it drops and spins |
| Flappy.FallComposes | app/src/main/java/emi/uhl/triggerfinger/game/FlappyMode.kt:148-151 | two tumble frames move the player as one frame of their summed length, so the tumble does not depend on the frame rate |
| Flappy.FlappyMode.constructor | app/src/main/java/emi/uhl/triggerfinger/game/FlappyMode.kt:30-103 | the display size is recorded; the scene is player, spawner and background in that order; the player has 99999 rounds, force 1200, no quick-shot bonus, at (300, screenHeight / 2) turned by 0.7 pi; pipes come at 275 px/s, 600 px apart, 4 units between top and bottom; the mode's slow motion (0.6) and shot join the touch handler's lists; the scene is sound |
| Flappy.FlappyMode.Update | app/src/main/java/emi/uhl/triggerfinger/game/FlappyMode.kt:105-157 | while playing, the scene steps and the game is over exactly when the pass fires this mode or the player fell below the screen, and a held touch is timed; after the game is over only the player tumbles; while paused nothing changes; the frame time is recorded unless timing the hold throws; the scene stays sound |
| Flappy.FlappyMode.PlayingFrame | app/src/main/java/emi/uhl/triggerfinger/game/FlappyMode.kt:107-145 | a playing frame: the scene's step, the fall check and the held touch, with the same game-over condition |
| Flappy.FlappyMode.Tumble | app/src/main/java/emi/uhl/triggerfinger/game/FlappyMode.kt:149-150 | only the player's transform changes, by one tumble frame |
| Flappy.FlappyMode.Finish | app/src/main/java/emi/uhl/triggerfinger/game/FlappyMode.kt:144-156 | a held touch is timed while playing; the frame time becomes now exactly when that does not throw |
| Flappy.FlappyMode.Play | app/src/main/java/emi/uhl/triggerfinger/game/FlappyMode.kt:109-137 | the scene's step: the mode is GAME_OVER exactly when the pass fires it, and the touch handler and frame time are untouched |
| Flappy.FlappyMode.CheckFall | app/src/main/java/emi/uhl/triggerfinger/game/FlappyMode.kt:140-142 | the game is over exactly when the player is below the screen, otherwise the state stays |
| Flappy.FlappyMode.OnTouchEvent | app/src/main/java/emi/uhl/triggerfinger/game/FlappyMode.kt:192-228 | routes the event as both modes do; with the mode's own handlers a press slows time to 0.6 exactly when playing with a round and no cooldown, and a release asks for one shot, quick exactly when short and not a drag, resets the time scale, and spends the player's round and kicks its body as `LoneShot` says |
| Flappy.BuildSpawner | app/src/main/java/emi/uhl/triggerfinger/game/FlappyMode.kt:70-77 | the spawner object holds one spawner, 600 px between pairs, 275 px/s, 4 units gap, no pipes yet and the counter primed to spawn |
| Flappy.BuildBackground | app/src/main/java/emi/uhl/triggerfinger/game/FlappyMode.kt:81-83 | the background object is on the background layer and scrolls at 150 px/s from 0 |
| Flappy.BuildScene | app/src/main/java/emi/uhl/triggerfinger/game/FlappyMode.kt:37-102 | the built scene is wired and live, is as init leaves it, and the touch lists gain exactly the mode's two handlers |
| Flappy.BuildParts | app/src/main/java/emi/uhl/triggerfinger/game/FlappyMode.kt:47-85 | the objects init creates are distinct, wired and hold init's values, and the mode's list is player, spawner, background |
| Flappy.BuildScenery | app/src/main/java/emi/uhl/triggerfinger/game/FlappyMode.kt:68-83 | the spawner's and the background's objects, distinct and holding their components |
| Flappy.SceneBuilt | app/src/main/java/emi/uhl/triggerfinger/game/FlappyMode.kt:37-85 | the world of the objects init creates satisfies the world invariants and the initial state |
| Flappy.FlappyPlayer | app/src/main/java/emi/uhl/triggerfinger/game/FlappyMode.kt:45-64 | the player with this mode's constants, wired to its parts |
| Flappy.SceneWired | app/src/main/java/emi/uhl/triggerfinger/game/FlappyMode.kt:47-85 | the scene init builds satisfies the wiring invariant: every component tracked, every shape pointing back, callbacks aimed at this mode |
| Flappy.SceneLive | app/src/main/java/emi/uhl/triggerfinger/game/FlappyMode.kt:85 | the initial scene satisfies the invariant the updates keep: no animation running, no pipes, three distinct objects |
| Endless.CameraLine | app/src/main/java/emi/uhl/triggerfinger/game/EndlessMode.kt:136-137 | the camera line is the screen height divided by 2.5, and lies within the screen |
| Endless.Follow | app/src/main/java/emi/uhl/triggerfinger/game/EndlessMode.kt:132-138 | the view never moves down; a player shown above the camera line ends exactly on it; otherwise the view stays |
| Endless.NextView | app/src/main/java/emi/uhl/triggerfinger/game/EndlessMode.kt:132-138 | a player below the lava's surface leaves the view where it was; otherwise the view follows the player, only ever upwards |
| Endless.FollowSettles | app/src/main/java/emi/uhl/triggerfinger/game/EndlessMode.kt:136-138 | following a second time for the same player position does not move the view again |
| Endless.HeightUnits | app/src/main/java/emi/uhl/triggerfinger/game/EndlessMode.kt:142 | the height shown is the negated position in units, rounded to the nearest integer |
| Endless.HigherIsHigher | app/src/main/java/emi/uhl/triggerfinger/game/EndlessMode.kt:142 | a player higher on the screen (smaller y) shows at least the same height |
| Endless.CoerceAtLeast | app/src/main/java/emi/uhl/triggerfinger/game/EndlessMode.kt:143 | the result is the larger of the two values |
| Endless.HeightAfterIsRecord | app/src/main/java/emi/uhl/triggerfinger/game/EndlessMode.kt:142-143 | over any run of frames the best height never falls below where it started, is at least every height shown, and is either the start or one of them |
| Endless.EndlessMode.constructor | app/src/main/java/emi/uhl/triggerfinger/game/EndlessMode.kt:22-95 | the display size is recorded; the scene is player then lava; the player has 30 rounds, the default force, a quick-shot bonus of 2, at (screenWidth / 2, 0) turned by -1.5 pi; the lava rises at least 225 px/s after the player, a fifth of the screen down; the view is offset half a screen down; the mode's slow motion (0.4) and shot join the touch handler's lists; the scene is sound |
| Endless.EndlessMode.Update | app/src/main/java/emi/uhl/triggerfinger/game/EndlessMode.kt:97-150 | while playing, the scene steps, the game is over exactly when the pass fires this mode or the player is below the lava, otherwise the view follows, a held touch is timed, and the best height and score are updated; after the game is over only the lava rises; while paused only the lava's wave moves; the best height never decreases; the scene stays sound |
| Endless.EndlessMode.Idle | app/src/main/java/emi/uhl/triggerfinger/game/EndlessMode.kt:99-149 | only the lava's wave advances, and the frame time is recorded |
| Endless.EndlessMode.Sink | app/src/main/java/emi/uhl/triggerfinger/game/EndlessMode.kt:101-149 | only the lava rises, by the speed rule against the player, and the frame time is recorded |
| Endless.EndlessMode.PlayingFrame | app/src/main/java/emi/uhl/triggerfinger/game/EndlessMode.kt:103-146 | a playing frame after the held touch: the step, the lava check, the view and, unless the hold threw, the best height and score |
| Endless.EndlessMode.Finish | app/src/main/java/emi/uhl/triggerfinger/game/EndlessMode.kt:140-149 | a held touch is timed while playing; the frame time becomes now exactly when that does not throw |
| Endless.EndlessMode.Play | app/src/main/java/emi/uhl/triggerfinger/game/EndlessMode.kt:104-130 | the scene's step: the mode is GAME_OVER exactly when the pass fires it, and the touch handler, frame time, view and best height are untouched |
| Endless.EndlessMode.Settle | app/src/main/java/emi/uhl/triggerfinger/game/EndlessMode.kt:132-145 | the lava check and view, then the best height and score |
| Endless.EndlessMode.CheckLava | app/src/main/java/emi/uhl/triggerfinger/game/EndlessMode.kt:132-138 | the game is over exactly when the player is below the lava's surface; otherwise the view follows the player up |
| Endless.EndlessMode.Score | app/src/main/java/emi/uhl/triggerfinger/game/EndlessMode.kt:142-145 | the best height takes the height now shown if it is higher, and the score is the best height plus the points gained |
| Endless.EndlessMode.PerformReload | app/src/main/java/emi/uhl/triggerfinger/game/EndlessMode.kt:197 | the magazine is full and the reload penalty runs, so with a positive penalty the player cannot shoot right away |
| Endless.EndlessMode.OnTouchEvent | app/src/main/java/emi/uhl/triggerfinger/game/EndlessMode.kt:200-236 | the touch point is shifted back by the view offset before routing; with the mode's own handlers a press slows time to 0.4 exactly when playing with a round and no cooldown, and a release asks for one shot, resets the time scale, and spends the player's round and kicks its body as `LoneShot` says |
| Endless.BuildScene | app/src/main/java/emi/uhl/triggerfinger/game/EndlessMode.kt:36-92 | the built scene is wired and live, is as init leaves it, and the touch lists gain exactly the mode's two handlers |
| Endless.BuildParts | app/src/main/java/emi/uhl/triggerfinger/game/EndlessMode.kt:48-76 | the objects init creates are distinct, wired and hold init's values, and the mode's list is player then lava |
| Endless.EndlessPlayer | app/src/main/java/emi/uhl/triggerfinger/game/EndlessMode.kt:46-64 | the player with this mode's constants, wired to its parts |
| Endless.BuildLava | app/src/main/java/emi/uhl/triggerfinger/game/EndlessMode.kt:68-72 | the lava object holds only its behaviour, rising at least 225 px/s after the player, placed a fifth of the screen down |
| Endless.SceneBuilt | app/src/main/java/emi/uhl/triggerfinger/game/EndlessMode.kt:36-76 | the world of the objects init creates satisfies the world invariants and the initial state |
| Endless.SceneWired | app/src/main/java/emi/uhl/triggerfinger/game/EndlessMode.kt:48-76 | the scene init builds satisfies the wiring invariant: every component tracked, the shape pointing back, its callback aimed at this mode |

## Left out

- The `GameMode.run` thread: its start and join, the `@Volatile running` flag's concurrency, and the `update`-then-`draw` loop. `resume` and `pause` are modelled as flag updates, and one frame is the mode's `Update` with the clock reading `now` as a parameter.
- Every `draw`/`drawUI` body, and `Paint`, `Path`, `Matrix`, `Canvas`, `SoundPool`, `BitmapFactory` and `Bitmap.createBitmap`. These are rendering and asset I/O. The sound a shot plays is left out; whether the shot fired is returned instead.
- Floating point. `Float` is `real` with exact arithmetic, so there is no IEEE rounding, overflow, NaN or infinity. π is the literal 3.1415927. `roundToInt` is floor(x + 0.5) and `toInt` truncates toward zero, without the saturation at the `Int` range.
- Square roots and trigonometry. The facing direction (cosine and sine of the rotation) is a parameter. Lengths are passed in as numbers whose square is the squared length. Distances are compared through their squares. `dot`, `angle` and `angleBetween` are not part of this model.
- `Random.nextFloat` in the pipe spawner is a parameter in [0, 1). `System.currentTimeMillis` is a parameter `now`.
- `RectF.contains` and `RectF.intersect` are not shown by the repository. They are taken to be half-open containment and strict overlap.
- `Sprite` keeps only the bitmap size, the scale, the size and origin derived from them, and the flip flags. Bitmaps are their width and height.
- `Transform` is a value field of each game object. The lava's shared `playerTransform` is read through the player object.
- `Component.kt` and `Game.kt` in the root package, `GameActivity`, `MainActivity` and `GameButton` are not part of this model. The exception is the root `Game.timeScale`, which the physics body reads: it starts at 1.0, and only the root `Game`, which no screen creates, writes it, so `PhysicsBody.Update` damps at 1.0 (the constant `ROOT_TIME_SCALE`; see Findings). The one component base modelled is `gameObjects/Component.kt`, which `PhysicsBody` and `Animator` stand in for where they import the root one.
- `FlappyMode` builds its player's body with `freezeX = true` (FlappyMode.kt:55), a parameter `PhysicsBody` does not declare. The flappy player's body is the default one, and its horizontal motion is not frozen.
- `FlappyMode` uses the result of `shoot` as a Boolean (FlappyMode.kt:97), but `PlayerBehaviour.shoot` returns nothing. The model's `Shoot` returns whether its guard passed.
- `Entities.UpdateComponents` (the loop of `GameObject.update`), `Scene.UpdateObjects`, `Scene.CollideRows` and `Scene.CollideRow` are recursive methods rather than the source's index loops. They visit the same elements in the same order.
- The collision pass is stated over a table of which pairs of shapes touch, computed from the shapes as they stand after the update loop. Its callbacks run in the source's order with the source's arguments, including `other.gameObject` in both calls.
- While playing, both modes time a held touch in one method, `Finish`, before the frame's other work, where the source times it after. `durationOfTouch` is read nowhere else in the frame, so the order gives the same state.
- Endless.EndlessMode.Update: when timing the held touch throws, because the touch's last point was never set, the contract says the best height is unchanged but does not state the score.
- Entities.GameObject.Update: states that the object's components update in list order only through its body, not as a postcondition; each component's own effect is stated by `Entities.Component.Update`, but the composed effect of the whole list is not, because composing the classes' effects across a list would take a frame per field for every prefix of the list, since the components of one object write the same transform and velocity one after another.
- Entities.UpdateComponents: the same; its contract keeps the scene wired and live and says which objects may be added, not the composed effect of the components.
- Scene.UpdateObjects: the objects of the snapshot update in list order in its body, and pipes added during the step are not visited; the contract states the invariants, the fresh additions and the unchanged game states, not each object's effect.
- Scene.UpdateFirst: the same as `Scene.UpdateObjects` for one object followed by the rest.
- Scene.PlayingStep: states the game-over condition and the compaction to the survivors, not how the update phase moved the objects.
- Flappy.FlappyMode.Update: while playing, states the game-over condition, the held touch and the frame time, not how the player, the pipes and the background moved during the step.
- Flappy.FlappyMode.PlayingFrame: the same omission of the objects' updates.
- Flappy.FlappyMode.Play: the same omission of the objects' updates.
- Endless.EndlessMode.Update: while playing, states the game state, the view, the best height and the score, not how the player and the lava moved during the step.
- Endless.EndlessMode.PlayingFrame: the same omission of the objects' updates.
- Endless.EndlessMode.Play: the same omission of the objects' updates.
- Touch.TouchEventHandler.RunEndHandlers: the kick on a player's body and the round spent are stated only when exactly one release handler shoots. With several shooters only the shots, their order and the time scale are stated, because each shooter's effect would need a proof that the other shooters leave its body and round alone.
- Touch.TouchEventHandler.ShootThenRest: the same; it covers the case of several shooters and states their shots and the time scale only.
- Touch.TouchEventHandler.OnTouchEnd: the same single-shooter limit. `TouchEventHandler` is one object for the whole process, and every `EndlessMode` built appends its own start and end handler without ever removing them, so from the second game in a process a release reaches several shooters, and the contract then says nothing about the live player's round or body.
- Modes.Dispatch: the same single-shooter limit on a release, for the same reason.
- Flappy.FlappyMode.OnTouchEvent: the same single-shooter limit on a release, for the same reason.
- Endless.EndlessMode.OnTouchEvent: the same single-shooter limit on a release, for the same reason.
- Animations.Animation.Row, `Animations.Animation.SourceRect`, `Animations.Animation.Frame` and `Animations.FrameRect` follow the search as written, over rows 0 to `rows`; the corrected search `Animations.RowOf` is stated beside them and agrees with it on every sheet that holds its frames (`Animations.RowOnValidSheet`).
- Entities.PhysicsBody.Update damps at the root scale 1.0 as written; the step the modes evidently intended, damped by their own scale, is `Motion.Step`, and `Motion.SlowMotionDampingDiffers` shows where the two part.
- The ghost `Entities.World` parameters and results exist only to name which objects a step may touch. The source has no counterpart.
- The links between objects and their components are set up when a scene is built (`SceneBuilt`, `SceneWired`). They are then kept by the methods' frames, and not re-proved as a postcondition of every frame.
- A `MotionEvent` is the action, x and y passed to `OnTouchEvent`. The `null` event the Android signature allows is left out.
- `gainedScore` in the endless mode is never written after construction, so it stays 0.
- `PipeSpawner.update` resets `totalMoved` before `createPipes` rather than after. `createPipes` never reads it, so the final state is the same.

## Findings

| source | as written | input that shows it | evidently intended | confidence | as-written member | corrected member |
|---|---|---|---|---|---|---|
| app/src/main/java/emi/uhl/triggerfinger/graphics/Animation.kt:41-47 | the row search runs from 0 to `rows` inclusive, one row past the sheet, so a frame beyond the sheet is reported on a row that does not exist instead of raising "Invalid row index!" | frame index 8 on a one-row sheet 8 frames wide: reported on row 1, although the sheet has only row 0 | search rows 0 to `rows - 1` (`0 until rows`); a frame on the sheet lies on row frameIndex / columns | not executed | Animations.RowSearchOverrun | Animations.RowOnValidSheet |
| app/src/main/java/emi/uhl/triggerfinger/physics/PhysicsBody.kt:4-18 | the body imports the root-package `Game` and damps by its `timeScale`, which neither mode writes (they set `game.Game.timeScale`), so damping is always at full scale 1.0 | a spinning body during the endless mode's slow motion (time scale 0.4): its spin is multiplied by 0.99 instead of 0.996 | damping scaled by the time scale the modes set | not executed | Motion.SlowMotionDampingDiffers | Motion.Step |
