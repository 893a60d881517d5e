/** `TouchEventHandler`: the gesture classifier shared by the game modes.
    It records when and where a touch starts, whether it became a drag and
    how long it lasted, and calls the handlers registered for each phase in
    list order, the built-in one first. */
module Touch {
  import opened Vectors
  import opened Wrappers
  import Game
  import Entities
  import PlayerRules

  /** A touch that moves further than this from its start is a drag. */
  const DRAG_DISTANCE: real := 15.0

  /** A release within this many seconds of the start is a quick shot. */
  const QUICK_SHOT_TIME: real := 0.2

  /** Handlers of a touch start: the built-in one, and the slow motion a
      game mode registers (`scale` is 0.6 for the side-scrolling mode and
      0.4 for the endless one). */
  datatype StartHandler = RecordStart | SlowMotion(mode: Entities.GameMode, player: Entities.PlayerBehaviour, scale: real)

  /** Handlers of a move: only the built-in one exists. */
  datatype DragHandler = RecordDrag

  /** Handlers of a held touch: only the built-in one exists. */
  datatype HoldHandler = RecordDuration

  /** Handlers of a release: the built-in one, and the shot a game mode
      registers. */
  datatype EndHandler = RecordEnd | ShootOnRelease(player: Entities.PlayerBehaviour)

  /** A shot a release handler asked for. */
  datatype Shot = Shot(player: Entities.PlayerBehaviour, quickShot: bool)

  /** Seconds between the start of a touch and `now`, both in milliseconds. */
  function Duration(now: int, touchStartTime: int): (r: real)
    ensures r * 1000.0 == (now - touchStartTime) as real
    ensures now >= touchStartTime ==> r >= 0.0
  {
    (now - touchStartTime) as real / 1000.0
  }

  /** The release is a quick shot: short enough and not a drag. */
  predicate IsQuickShot(durationOfTouch: real, wasDrag: bool)
  {
    durationOfTouch < QUICK_SHOT_TIME && !wasDrag
  }

  /** A move to `point` counts as a drag: it lies more than 15 pixels from
      the start of the touch (compared on squared distances). */
  predicate FarFromStart(point: Vec2, start: Vec2)
  {
    DistanceSquared(point, start) > DRAG_DISTANCE * DRAG_DISTANCE
  }

  /** The squared comparison is the source's `distance(point, start) > 15`. */
  lemma {:induction false} FarFromStartIsDistance(point: Vec2, start: Vec2, distance: real)
    requires IsLength(start.Minus(point), distance)
    ensures FarFromStart(point, start) <==> distance > DRAG_DISTANCE
  {
    if distance > DRAG_DISTANCE {
      assert distance * distance > DRAG_DISTANCE * distance;
      assert DRAG_DISTANCE * distance > DRAG_DISTANCE * DRAG_DISTANCE;
    } else {
      assert DistanceSquared(point, start) == distance * distance;
      NonNegativeProduct(DRAG_DISTANCE - distance, distance);
      NonNegativeProduct(DRAG_DISTANCE, DRAG_DISTANCE - distance);
    }
  }

  lemma NonNegativeProduct(a: real, b: real)
    requires a >= 0.0 && b >= 0.0
    ensures a * b >= 0.0
  {
  }

  /** The modes and the players the slow-motion handlers read. */
  function Modes(hs: seq<StartHandler>): set<Entities.GameMode>
  {
    set h | h in hs && h.SlowMotion? :: h.mode
  }

  function Players(hs: seq<StartHandler>): set<Entities.PlayerBehaviour>
  {
    set h | h in hs && h.SlowMotion? :: h.player
  }

  /** A slow-motion handler acts: its mode is playing and its player has a
      round and no cooldown. */
  predicate SlowsDown(h: StartHandler)
    requires h.SlowMotion?
    reads h.mode`gameState, h.player`remainingAmmo, h.player`timer
  {
    h.mode.gameState == Entities.Playing && h.player.remainingAmmo > 0 && !PlayerRules.Cooldown(h.player.timer)
  }

  /** The time scale after the start handlers `hs` ran on `timeScale`. */
  function ScaleAfter(hs: seq<StartHandler>, timeScale: real): real
    reads Modes(hs)`gameState, Players(hs)`remainingAmmo, Players(hs)`timer
  {
    if hs == [] then timeScale
    else
      var h := hs[|hs| - 1];
      var before := ScaleAfter(hs[..|hs| - 1], timeScale);
      assert h in hs;
      if h.SlowMotion? && SlowsDown(h) then h.scale else before
  }

  /** The time scale after a touch start is the one it had or the scale of
      an acting slow-motion handler, and stays when none acts. */
  lemma {:induction false} ScaleAfterCases(hs: seq<StartHandler>, timeScale: real)
    ensures ScaleAfter(hs, timeScale) == timeScale ||
            exists k :: 0 <= k < |hs| && hs[k].SlowMotion? && SlowsDown(hs[k]) && ScaleAfter(hs, timeScale) == hs[k].scale
    ensures (forall k :: 0 <= k < |hs| && hs[k].SlowMotion? ==> !SlowsDown(hs[k])) ==> ScaleAfter(hs, timeScale) == timeScale
  {
    if hs != [] {
      var front := hs[..|hs| - 1];
      ScaleAfterCases(front, timeScale);
      assert forall k :: 0 <= k < |front| ==> front[k] == hs[k];
      var h := hs[|hs| - 1];
      if !(h.SlowMotion? && SlowsDown(h)) {
        if ScaleAfter(front, timeScale) != timeScale {
          var k :| 0 <= k < |front| && front[k].SlowMotion? && SlowsDown(front[k]) &&
                   ScaleAfter(front, timeScale) == front[k].scale;
          assert hs[k] == front[k];
        }
      }
    }
  }

  /** The shots the release handlers `hs` ask for, in list order, when the
      touch has lasted `durationOfTouch` so far and lasts `ended` once the
      built-in handler has recorded the release. */
  function Shots(hs: seq<EndHandler>, durationOfTouch: real, wasDrag: bool, ended: real): seq<Shot>
    decreases |hs|
  {
    if hs == [] then []
    else match hs[0]
      case RecordEnd => Shots(hs[1..], ended, wasDrag, ended)
      case ShootOnRelease(p) => [Shot(p, IsQuickShot(durationOfTouch, wasDrag))] + Shots(hs[1..], durationOfTouch, wasDrag, ended)
  }

  /** The players of the shooting handlers, in list order. */
  function Shooters(hs: seq<EndHandler>): seq<Entities.PlayerBehaviour>
  {
    if hs == [] then []
    else if hs[0].ShootOnRelease? then [hs[0].player] + Shooters(hs[1..])
    else Shooters(hs[1..])
  }

  /** The shooters are exactly the players of the shooting handlers. */
  lemma {:induction false} ShootersAreHandlers(hs: seq<EndHandler>)
    ensures forall p :: p in Shooters(hs) <==> ShootOnRelease(p) in hs
  {
    if hs != [] {
      ShootersAreHandlers(hs[1..]);
      assert hs == [hs[0]] + hs[1..];
    }
  }

  /** The players of the shooting handlers, the only players a release
      spends a round of. */
  function ShooterSet(hs: seq<EndHandler>): set<Entities.PlayerBehaviour>
  {
    set h | h in hs && h.ShootOnRelease? :: h.player
  }

  /** The bodies of the shooters, the only bodies a release moves. */
  function ShooterBodies(hs: seq<EndHandler>): set<Entities.PhysicsBody?>
    reads ShooterSet(hs)`body
  {
    set h | h in hs && h.ShootOnRelease? :: h.player.body
  }

  /** The first handler and the rest of the list touch no body and no
      player outside those of the whole list. */
  lemma ShooterFramesSplit(hs: seq<EndHandler>)
    requires hs != []
    ensures ShooterSet([hs[0]]) <= ShooterSet(hs) && ShooterSet(hs[1..]) <= ShooterSet(hs)
    ensures ShooterBodies([hs[0]]) <= ShooterBodies(hs) && ShooterBodies(hs[1..]) <= ShooterBodies(hs)
  {
    assert forall h :: h in hs[1..] ==> h in hs;
  }

  /** A list opening with the built-in handler: the rest of it has the
      same shooters, who shoot as they would after the release. */
  lemma RecordFirst(hs: seq<EndHandler>, durationOfTouch: real, wasDrag: bool, ended: real)
    requires hs != [] && hs[0] == RecordEnd
    ensures RecordEnd in hs && Shooters(hs) == Shooters(hs[1..])
    ensures Shots(hs, durationOfTouch, wasDrag, ended) == Shots(hs[1..], ended, wasDrag, ended)
    ensures ShooterSet(hs[1..]) == ShooterSet(hs) && ShooterBodies(hs[1..]) == ShooterBodies(hs)
    ensures forall h :: h in hs[1..] ==> h in hs
  {
    assert forall h :: h in hs ==> h == hs[0] || h in hs[1..];
  }

  /** A list whose one shooter comes first: that shooter shoots once,
      quick as the touch it sees says, and the rest of the list holds only
      the built-in handler. */
  lemma LoneShooterFirst(hs: seq<EndHandler>, durationOfTouch: real, wasDrag: bool, ended: real)
    requires hs != [] && hs[0].ShootOnRelease? && |Shooters(hs)| == 1
    ensures HasShooter(hs) && Shooters(hs)[0] == hs[0].player
    ensures forall h :: h in hs[1..] ==> !h.ShootOnRelease?
    ensures (RecordEnd in hs) == (RecordEnd in hs[1..])
    ensures Shots(hs, durationOfTouch, wasDrag, ended) == [Shot(hs[0].player, IsQuickShot(durationOfTouch, wasDrag))]
    ensures hs[0].player in ShooterSet(hs) && hs[0].player.body in ShooterBodies(hs)
  {
    NoShooters(hs[1..], durationOfTouch, wasDrag, ended);
    assert forall h :: h in hs ==> h == hs[0] || h in hs[1..];
  }

  /** A list without shooters has no shooting handler and asks for no
      shot. */
  lemma {:induction false} NoShooters(hs: seq<EndHandler>, durationOfTouch: real, wasDrag: bool, ended: real)
    requires Shooters(hs) == []
    ensures forall h :: h in hs ==> !h.ShootOnRelease?
    ensures Shots(hs, durationOfTouch, wasDrag, ended) == []
  {
    if hs != [] {
      NoShooters(hs[1..], ended, wasDrag, ended);
      NoShooters(hs[1..], durationOfTouch, wasDrag, ended);
      assert forall h :: h in hs ==> h == hs[0] || h in hs[1..];
    }
  }

  /** `shots` is one shot of player `p`, which had `rounds` rounds, a body
      moving at `v0` and spinning at `s0`, taken as `ShotTaken` says. */
  ghost predicate LoneShot(p: Entities.PlayerBehaviour, shots: seq<Shot>, rounds: int, v0: Vec2, s0: real,
                           direction: real -> Vec2)
    reads p, if p.body == null then {} else {p.body}
    reads (if p.gameObject == null then {} else {p.gameObject})`transform
    reads (if p.sprite == null then {} else {p.sprite})`flipY
  {
    |shots| == 1 && shots[0].player == p && p.ShotTaken(shots[0].quickShot, rounds, v0, s0, direction)
  }

  /** Every shooting handler shoots once, in list order, and nothing else
      shoots. */
  lemma {:induction false} ShotsFollowHandlers(hs: seq<EndHandler>, durationOfTouch: real, wasDrag: bool, ended: real)
    ensures var shots := Shots(hs, durationOfTouch, wasDrag, ended);
            |shots| == |Shooters(hs)| && forall k :: 0 <= k < |shots| ==> shots[k].player == Shooters(hs)[k]
  {
    if hs != [] {
      match hs[0]
      case RecordEnd => ShotsFollowHandlers(hs[1..], ended, wasDrag, ended);
      case ShootOnRelease(p) => ShotsFollowHandlers(hs[1..], durationOfTouch, wasDrag, ended);
    }
  }

  /** Once the built-in handler has recorded the release, every later shot
      is quick exactly when the finished touch was short and not a drag. */
  lemma {:induction false} ShotsSeeRelease(hs: seq<EndHandler>, wasDrag: bool, ended: real)
    ensures forall k :: 0 <= k < |Shots(hs, ended, wasDrag, ended)| ==>
              Shots(hs, ended, wasDrag, ended)[k].quickShot == IsQuickShot(ended, wasDrag)
  {
    if hs != [] {
      ShotsSeeRelease(hs[1..], wasDrag, ended);
    }
  }

  /** With the built-in handler first, as registered, the game modes'
      handlers see the duration of the finished touch and not the value
      from the last hold. */
  lemma ModesSeeFinishedTouch(hs: seq<EndHandler>, durationOfTouch: real, wasDrag: bool, ended: real)
    requires hs != [] && hs[0] == RecordEnd
    ensures forall k :: 0 <= k < |Shots(hs, durationOfTouch, wasDrag, ended)| ==>
              Shots(hs, durationOfTouch, wasDrag, ended)[k].quickShot == IsQuickShot(ended, wasDrag)
  {
    ShotsSeeRelease(hs[1..], wasDrag, ended);
  }

  /** Some release handler shoots (and so resets the time scale). */
  predicate HasShooter(hs: seq<EndHandler>)
  {
    Shooters(hs) != []
  }

  /** The singleton `TouchEventHandler`. The `lateinit` points are `None`
      until the first touch starts; the clock is passed in as `now`. */
  class TouchEventHandler {
    var durationOfTouch: real
    var wasDrag: bool
    var isTouching: bool
    var startOfTouch: Option<Vec2>
    var lastKnownTouch: Option<Vec2>
    var touchStartTime: int
    var touchStartEvent: seq<StartHandler>
    var touchDragEvent: seq<DragHandler>
    var touchHoldEvent: seq<HoldHandler>
    var touchEndEvent: seq<EndHandler>

    /** A touch in progress has its points recorded, and the two points are
        recorded together. */
    predicate Valid()
      reads this`isTouching, this`startOfTouch, this`lastKnownTouch
    {
      (startOfTouch.Some? <==> lastKnownTouch.Some?) && (isTouching ==> lastKnownTouch.Some?)
    }

    constructor ()
      ensures durationOfTouch == -1.0 && !wasDrag && !isTouching
      ensures startOfTouch == None && lastKnownTouch == None && touchStartTime == -1
      ensures touchStartEvent == [RecordStart] && touchDragEvent == [RecordDrag]
      ensures touchHoldEvent == [RecordDuration] && touchEndEvent == [RecordEnd]
      ensures Valid()
    {
      durationOfTouch := -1.0;
      wasDrag := false;
      isTouching := false;
      startOfTouch := None;
      lastKnownTouch := None;
      touchStartTime := -1;
      touchStartEvent := [RecordStart];
      touchDragEvent := [RecordDrag];
      touchHoldEvent := [RecordDuration];
      touchEndEvent := [RecordEnd];
    }

    /** `touchStartEvent.add(h)`. */
    method AddStartHandler(h: StartHandler)
      modifies this`touchStartEvent
      ensures touchStartEvent == old(touchStartEvent) + [h]
    {
      touchStartEvent := touchStartEvent + [h];
    }

    /** `touchEndEvent.add(h)`. */
    method AddEndHandler(h: EndHandler)
      modifies this`touchEndEvent
      ensures touchEndEvent == old(touchEndEvent) + [h]
    {
      touchEndEvent := touchEndEvent + [h];
    }

    /** `onTouchStart(x, y)`: the built-in handler records the clock, the
        point and a fresh, undragged touch; each slow-motion handler whose
        mode is playing and whose player can shoot sets the time scale. */
    method OnTouchStart(x: real, y: real, now: int, globals: Game.Globals)
      modifies this`touchStartTime, this`wasDrag, this`isTouching, this`startOfTouch, this`lastKnownTouch
      modifies globals`timeScale
      ensures RecordStart in touchStartEvent ==>
                touchStartTime == now && !wasDrag && isTouching &&
                startOfTouch == Some(Vec2(x, y)) && lastKnownTouch == startOfTouch
      ensures RecordStart !in touchStartEvent ==>
                touchStartTime == old(touchStartTime) && wasDrag == old(wasDrag) && isTouching == old(isTouching) &&
                startOfTouch == old(startOfTouch) && lastKnownTouch == old(lastKnownTouch)
      ensures globals.timeScale == ScaleAfter(touchStartEvent, old(globals.timeScale))
      ensures old(Valid()) ==> Valid()
    {
      var hs := touchStartEvent;
      var i := 0;
      while i < |hs|
        invariant 0 <= i <= |hs|
        invariant globals.timeScale == ScaleAfter(hs[..i], old(globals.timeScale))
        invariant RecordStart in hs[..i] ==>
                    touchStartTime == now && !wasDrag && isTouching &&
                    startOfTouch == Some(Vec2(x, y)) && lastKnownTouch == startOfTouch
        invariant RecordStart !in hs[..i] ==>
                    touchStartTime == old(touchStartTime) && wasDrag == old(wasDrag) && isTouching == old(isTouching) &&
                    startOfTouch == old(startOfTouch) && lastKnownTouch == old(lastKnownTouch)
      {
        Entities.TakeOneMore(hs, i);
        assert hs[..i + 1][..i] == hs[..i];
        StartStep(hs[i], x, y, now, globals, hs[..i], old(globals.timeScale));
        i := i + 1;
      }
      assert hs[..i] == hs;
    }

    /** One start handler: the built-in one records the touch; a slow-motion
        one sets the time scale when its mode is playing and its player can
        shoot. */
    method StartStep(h: StartHandler, x: real, y: real, now: int, globals: Game.Globals,
                     ghost ran: seq<StartHandler>, ghost timeScale: real)
      modifies this`touchStartTime, this`wasDrag, this`isTouching, this`startOfTouch, this`lastKnownTouch
      modifies globals`timeScale
      ensures ScaleAfter(ran, timeScale) == old(ScaleAfter(ran, timeScale))
      ensures h == RecordStart ==>
                touchStartTime == now && !wasDrag && isTouching &&
                startOfTouch == Some(Vec2(x, y)) && lastKnownTouch == startOfTouch &&
                globals.timeScale == old(globals.timeScale)
      ensures h.SlowMotion? ==>
                touchStartTime == old(touchStartTime) && wasDrag == old(wasDrag) && isTouching == old(isTouching) &&
                startOfTouch == old(startOfTouch) && lastKnownTouch == old(lastKnownTouch) &&
                globals.timeScale == (if SlowsDown(h) then h.scale else old(globals.timeScale))
    {
      match h {
        case RecordStart =>
          touchStartTime := now;
          wasDrag := false;
          isTouching := true;
          startOfTouch := Some(Vec2(x, y));
          lastKnownTouch := startOfTouch;
        case SlowMotion(mode, player, scale) =>
          if mode.gameState == Entities.Playing && player.remainingAmmo > 0 && !PlayerRules.Cooldown(player.timer) {
            globals.timeScale := scale;
          }
      }
    }

    /** `onTouchDrag(x, y)`: the built-in handler marks a drag once the
        point is more than 15 pixels from the start (never clearing it) and
        records the point. `ok` is false where reading the unset start
        point makes the source throw; then nothing changes. */
    method OnTouchDrag(x: real, y: real) returns (ok: bool)
      modifies this`wasDrag, this`lastKnownTouch
      ensures ok <==> touchDragEvent == [] || old(startOfTouch).Some?
      ensures ok && touchDragEvent != [] ==>
                wasDrag == (old(wasDrag) || FarFromStart(Vec2(x, y), startOfTouch.value)) &&
                lastKnownTouch == Some(Vec2(x, y))
      ensures !ok || touchDragEvent == [] ==> wasDrag == old(wasDrag) && lastKnownTouch == old(lastKnownTouch)
      ensures old(Valid()) ==> Valid()
    {
      var i := 0;
      while i < |touchDragEvent|
        invariant 0 <= i <= |touchDragEvent|
        invariant i == 0 ==> wasDrag == old(wasDrag) && lastKnownTouch == old(lastKnownTouch)
        invariant i > 0 ==> startOfTouch.Some? &&
                            wasDrag == (old(wasDrag) || FarFromStart(Vec2(x, y), startOfTouch.value)) &&
                            lastKnownTouch == Some(Vec2(x, y))
      {
        match startOfTouch {
          case None => return false;
          case Some(start) =>
            if FarFromStart(Vec2(x, y), start) {
              wasDrag := true;
            }
            lastKnownTouch := Some(Vec2(x, y));
        }
        i := i + 1;
      }
      ok := true;
    }

    /** `onTouchHold()`: the built-in handler records how long the touch
        has lasted; no flag changes. `ok` is false where reading the unset
        last point makes the source throw; then nothing changes. */
    method OnTouchHold(now: int) returns (ok: bool)
      modifies this`durationOfTouch
      ensures ok <==> touchHoldEvent == [] || lastKnownTouch.Some?
      ensures ok && touchHoldEvent != [] ==> durationOfTouch == Duration(now, touchStartTime)
      ensures !ok || touchHoldEvent == [] ==> durationOfTouch == old(durationOfTouch)
    {
      var i := 0;
      while i < |touchHoldEvent|
        invariant 0 <= i <= |touchHoldEvent|
        invariant i == 0 ==> durationOfTouch == old(durationOfTouch)
        invariant i > 0 ==> lastKnownTouch.Some? && durationOfTouch == Duration(now, touchStartTime)
      {
        if lastKnownTouch.None? {
          return false;
        }
        durationOfTouch := (now - touchStartTime) as real / 1000.0;
        i := i + 1;
      }
      ok := true;
    }

    /** `onTouchEnd(x, y)`: the built-in handler records the duration and
        ends the touch; each shooting handler shoots its player, quick when
        the touch it sees was short and not a drag, and resets the time
        scale to 1. `shots` lists the shots asked for, in order. */
    method OnTouchEnd(x: real, y: real, now: int, direction: real -> Vec2, globals: Game.Globals,
                      ghost w: Entities.World)
      returns (ghost shots: seq<Shot>)
      requires Entities.Wired(w) && Entities.Live(w)
      requires forall h :: h in touchEndEvent && h.ShootOnRelease? ==> h.player in w.players
      modifies this`durationOfTouch, this`isTouching, globals`timeScale
      modifies ShooterBodies(touchEndEvent)`velocity, ShooterBodies(touchEndEvent)`angleVelocity
      modifies ShooterSet(touchEndEvent)`remainingAmmo
      modifies w.animators`animation, w.animations`frameIndex, w.animations`timer
      ensures Entities.Wired(w) && Entities.Live(w)
      ensures shots == Shots(touchEndEvent, old(durationOfTouch), wasDrag, Duration(now, touchStartTime))
      ensures RecordEnd in touchEndEvent ==> durationOfTouch == Duration(now, touchStartTime) && !isTouching
      ensures RecordEnd !in touchEndEvent ==> durationOfTouch == old(durationOfTouch) && isTouching == old(isTouching)
      ensures HasShooter(touchEndEvent) ==> globals.timeScale == 1.0
      ensures !HasShooter(touchEndEvent) ==> globals.timeScale == old(globals.timeScale)
      ensures |Shooters(touchEndEvent)| == 1 ==> Shooters(touchEndEvent)[0] in w.players
      ensures |Shooters(touchEndEvent)| == 1 ==>
                var p := Shooters(touchEndEvent)[0];
                LoneShot(p, shots, old(p.remainingAmmo), old(p.body.velocity), old(p.body.angleVelocity), direction)
      ensures old(Valid()) ==> Valid()
    {
      shots := RunEndHandlers(touchEndEvent, now, direction, globals, w, durationOfTouch, Duration(now, touchStartTime));
    }

    /** The release handlers `hs`, one after the other, on a touch that had
        lasted `duration` and was a drag as `wasDrag` says, and lasts
        `ended` when released. Only the shooters' bodies and rounds
        change; with a single shooter, its shot is as `LoneShot` says. */
    method RunEndHandlers(hs: seq<EndHandler>, now: int, direction: real -> Vec2, globals: Game.Globals,
                          ghost w: Entities.World, ghost duration: real, ghost ended: real)
      returns (ghost shots: seq<Shot>)
      requires Entities.Wired(w) && Entities.Live(w)
      requires forall h :: h in hs && h.ShootOnRelease? ==> h.player in w.players
      requires duration == durationOfTouch && ended == Duration(now, touchStartTime)
      modifies this`durationOfTouch, this`isTouching, globals`timeScale
      modifies ShooterBodies(hs)`velocity, ShooterBodies(hs)`angleVelocity
      modifies ShooterSet(hs)`remainingAmmo
      modifies w.animators`animation, w.animations`frameIndex, w.animations`timer
      ensures Entities.Wired(w) && Entities.Live(w)
      ensures shots == Shots(hs, duration, wasDrag, ended)
      ensures RecordEnd in hs ==> durationOfTouch == ended && !isTouching
      ensures RecordEnd !in hs ==> durationOfTouch == duration && isTouching == old(isTouching)
      ensures HasShooter(hs) ==> globals.timeScale == 1.0
      ensures !HasShooter(hs) ==> globals.timeScale == old(globals.timeScale)
      ensures |Shooters(hs)| == 1 ==> Shooters(hs)[0] in w.players
      ensures |Shooters(hs)| == 1 ==>
                var p := Shooters(hs)[0];
                LoneShot(p, shots, old(p.remainingAmmo), old(p.body.velocity), old(p.body.angleVelocity), direction)
      decreases |hs|, 1
    {
      if hs == [] {
        return [];
      } else if hs[0] == RecordEnd {
        shots := RecordThenRest(hs, now, direction, globals, w, duration, ended);
      } else if |Shooters(hs)| == 1 {
        LoneShooterFirst(hs, duration, wasDrag, ended);
        var shot := ShootAlone(hs, now, direction, globals, w, duration, ended);
        shots := [shot];
      } else {
        shots := ShootThenRest(hs, now, direction, globals, w, duration, ended);
      }
    }

    /** The built-in handler first, then the rest of the list: the same
        effects as `RunEndHandlers` on the whole list. */
    method RecordThenRest(hs: seq<EndHandler>, now: int, direction: real -> Vec2, globals: Game.Globals,
                          ghost w: Entities.World, ghost duration: real, ghost ended: real)
      returns (ghost shots: seq<Shot>)
      requires hs != [] && hs[0] == RecordEnd
      requires Entities.Wired(w) && Entities.Live(w)
      requires forall h :: h in hs && h.ShootOnRelease? ==> h.player in w.players
      requires duration == durationOfTouch && ended == Duration(now, touchStartTime)
      modifies this`durationOfTouch, this`isTouching, globals`timeScale
      modifies ShooterBodies(hs)`velocity, ShooterBodies(hs)`angleVelocity
      modifies ShooterSet(hs)`remainingAmmo
      modifies w.animators`animation, w.animations`frameIndex, w.animations`timer
      ensures Entities.Wired(w) && Entities.Live(w)
      ensures shots == Shots(hs, duration, wasDrag, ended)
      ensures durationOfTouch == ended && !isTouching
      ensures HasShooter(hs) ==> globals.timeScale == 1.0
      ensures !HasShooter(hs) ==> globals.timeScale == old(globals.timeScale)
      ensures |Shooters(hs)| == 1 ==> Shooters(hs)[0] in w.players
      ensures |Shooters(hs)| == 1 ==>
                var p := Shooters(hs)[0];
                LoneShot(p, shots, old(p.remainingAmmo), old(p.body.velocity), old(p.body.angleVelocity), direction)
      decreases |hs|, 0
    {
      RecordFirst(hs, duration, wasDrag, ended);
      RecordRelease(now);
      shots := RunEndHandlers(hs[1..], now, direction, globals, w, durationOfTouch, ended);
    }

    /** A shooting handler first, then the rest of the list: the same
        effects as `RunEndHandlers` on the whole list. */
    method ShootThenRest(hs: seq<EndHandler>, now: int, direction: real -> Vec2, globals: Game.Globals,
                         ghost w: Entities.World, ghost duration: real, ghost ended: real)
      returns (ghost shots: seq<Shot>)
      requires hs != [] && hs[0].ShootOnRelease? && |Shooters(hs)| != 1
      requires Entities.Wired(w) && Entities.Live(w)
      requires forall h :: h in hs && h.ShootOnRelease? ==> h.player in w.players
      requires duration == durationOfTouch && ended == Duration(now, touchStartTime)
      modifies this`durationOfTouch, this`isTouching, globals`timeScale
      modifies ShooterBodies(hs)`velocity, ShooterBodies(hs)`angleVelocity
      modifies ShooterSet(hs)`remainingAmmo
      modifies w.animators`animation, w.animations`frameIndex, w.animations`timer
      ensures Entities.Wired(w) && Entities.Live(w)
      ensures shots == Shots(hs, duration, wasDrag, ended)
      ensures RecordEnd in hs ==> durationOfTouch == ended && !isTouching
      ensures RecordEnd !in hs ==> durationOfTouch == duration && isTouching == old(isTouching)
      ensures globals.timeScale == 1.0
      decreases |hs|, 0
    {
      ShooterFramesSplit(hs);
      var shot := EndStep(hs[0], now, direction, globals, w, duration, ended);
      var rest := RunEndHandlers(hs[1..], now, direction, globals, w, durationOfTouch, ended);
      shots := [shot.value] + rest;
    }

    /** A shooting handler first and no other shooter after it: the one
        shot is taken as `ShotTaken` says and nothing later disturbs it. */
    method ShootAlone(hs: seq<EndHandler>, now: int, direction: real -> Vec2, globals: Game.Globals,
                      ghost w: Entities.World, ghost duration: real, ghost ended: real)
      returns (ghost shot: Shot)
      requires hs != [] && hs[0].ShootOnRelease? && forall h :: h in hs[1..] ==> !h.ShootOnRelease?
      requires Entities.Wired(w) && Entities.Live(w) && hs[0].player in w.players
      requires duration == durationOfTouch && ended == Duration(now, touchStartTime)
      modifies this`durationOfTouch, this`isTouching, globals`timeScale
      modifies hs[0].player.body`velocity, hs[0].player.body`angleVelocity, hs[0].player`remainingAmmo
      modifies w.animators`animation, w.animations`frameIndex, w.animations`timer
      ensures Entities.Wired(w) && Entities.Live(w)
      ensures shot == Shot(hs[0].player, IsQuickShot(duration, wasDrag))
      ensures RecordEnd in hs[1..] ==> durationOfTouch == ended && !isTouching
      ensures RecordEnd !in hs[1..] ==> durationOfTouch == duration && isTouching == old(isTouching)
      ensures globals.timeScale == 1.0
      ensures var p := hs[0].player;
              LoneShot(p, [shot], old(p.remainingAmmo), old(p.body.velocity), old(p.body.angleVelocity), direction)
    {
      shot := Shoot(hs[0].player, direction, globals, w, duration);
      RecordEnds(hs[1..], now, w);
    }

    /** One release handler: the built-in one records the duration and ends
        the touch; a shooting one shoots, quick as the touch it sees says,
        and resets the time scale. */
    method EndStep(h: EndHandler, now: int, direction: real -> Vec2, globals: Game.Globals,
                   ghost w: Entities.World, ghost duration: real, ghost ended: real)
      returns (ghost shot: Option<Shot>)
      requires Entities.Wired(w) && Entities.Live(w)
      requires h.ShootOnRelease? ==> h.player in w.players
      requires duration == durationOfTouch && ended == Duration(now, touchStartTime)
      modifies this`durationOfTouch, this`isTouching, globals`timeScale
      modifies (if h.ShootOnRelease? then {h.player.body} else {})`velocity
      modifies (if h.ShootOnRelease? then {h.player.body} else {})`angleVelocity
      modifies (if h.ShootOnRelease? then {h.player} else {})`remainingAmmo
      modifies w.animators`animation, w.animations`frameIndex, w.animations`timer
      ensures Entities.Wired(w) && Entities.Live(w)
      ensures h == RecordEnd ==>
                durationOfTouch == ended && !isTouching && shot == None && globals.timeScale == old(globals.timeScale)
      ensures h.ShootOnRelease? ==>
                durationOfTouch == duration && isTouching == old(isTouching) && globals.timeScale == 1.0 &&
                shot == Some(Shot(h.player, IsQuickShot(duration, wasDrag))) &&
                LoneShot(h.player, [shot.value], old(h.player.remainingAmmo), old(h.player.body.velocity),
                         old(h.player.body.angleVelocity), direction)
    {
      match h {
        case RecordEnd =>
          RecordRelease(now);
          shot := None;
        case ShootOnRelease(p) =>
          var s := Shoot(p, direction, globals, w, duration);
          shot := Some(s);
      }
    }

    /** A shooting handler: its player shoots, quick when the touch was
        short and not a drag, and the time scale returns to 1. */
    method Shoot(p: Entities.PlayerBehaviour, direction: real -> Vec2, globals: Game.Globals,
                 ghost w: Entities.World, ghost duration: real)
      returns (ghost shot: Shot)
      requires Entities.Wired(w) && Entities.Live(w) && p in w.players && duration == durationOfTouch
      modifies globals`timeScale, p.body`velocity, p.body`angleVelocity, p`remainingAmmo
      modifies w.animators`animation, w.animations`frameIndex, w.animations`timer
      ensures Entities.Wired(w) && Entities.Live(w)
      ensures shot == Shot(p, IsQuickShot(duration, wasDrag)) && globals.timeScale == 1.0
      ensures LoneShot(p, [shot], old(p.remainingAmmo), old(p.body.velocity), old(p.body.angleVelocity), direction)
    {
      var quick := durationOfTouch < QUICK_SHOT_TIME && !wasDrag;
      Release(p, quick, direction, globals, w);
      shot := Shot(p, quick);
    }

    /** A list holding only the built-in release handler: the release is
        recorded when the list holds it, and nothing else changes. */
    method RecordEnds(hs: seq<EndHandler>, now: int, ghost w: Entities.World)
      requires forall h :: h in hs ==> !h.ShootOnRelease?
      requires Entities.Wired(w) && Entities.Live(w)
      modifies this`durationOfTouch, this`isTouching
      ensures Entities.Wired(w) && Entities.Live(w)
      ensures RecordEnd in hs ==> durationOfTouch == Duration(now, touchStartTime) && !isTouching
      ensures RecordEnd !in hs ==> durationOfTouch == old(durationOfTouch) && isTouching == old(isTouching)
      decreases |hs|
    {
      if hs != [] {
        assert hs[0] == RecordEnd;
        RecordRelease(now);
        RecordEnds(hs[1..], now, w);
        assert forall h :: h in hs ==> h == hs[0] || h in hs[1..];
      }
    }

    /** The built-in release handler: the touch lasted until `now` and is
        over. */
    method RecordRelease(now: int)
      modifies this`durationOfTouch, this`isTouching
      ensures durationOfTouch == Duration(now, touchStartTime) && !isTouching
    {
      durationOfTouch := (now - touchStartTime) as real / 1000.0;
      isTouching := false;
    }
  }

  /** A game mode's release handler: the player shoots (quick or not),
      which kicks its body when it had a round and no cooldown, and the time
      scale returns to 1. */
  method Release(p: Entities.PlayerBehaviour, quickShot: bool, direction: real -> Vec2, globals: Game.Globals,
                 ghost w: Entities.World)
    requires Entities.Wired(w) && Entities.Live(w) && p in w.players
    modifies globals`timeScale
    modifies p.body`velocity, p.body`angleVelocity, p`remainingAmmo
    modifies w.animators`animation, w.animations`frameIndex, w.animations`timer
    ensures Entities.Wired(w) && Entities.Live(w)
    ensures p.remainingAmmo == PlayerRules.AmmoAfterShot(old(p.remainingAmmo), p.timer)
    ensures Entities.Kicked(PlayerRules.CanShoot(old(p.remainingAmmo), p.timer),
                            old(p.body.velocity), old(p.body.angleVelocity), p.body.velocity, p.body.angleVelocity,
                            p.ShotKick(quickShot, direction), p.body.mass, PlayerRules.SpinAfterShot(p.sprite.flipY))
    ensures globals.timeScale == 1.0
  {
    var _ := Entities.ShootStep(p, quickShot, direction, w);
    globals.timeScale := 1.0;
  }
}
