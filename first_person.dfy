/**
 * The first-person walker of the 3D experience: one per-frame step shared by
 * the experience page and the standalone scene, which differ only in their
 * constants; plus the page's pointer-lock cooldown and its Escape key.
 */
module FirstPerson {
  import opened Base

  /** Walk and sprint speed, jump impulse, gravity and the floor (eye) height. */
  datatype Constants = Constants(walkSpeed: real, sprintSpeed: real, jumpForce: real, gravity: real, floorY: real)

  /** The experience page: game-like units, floor at 4. */
  const PageConstants := Constants(10.0, 15.0, 10.0, 25.0, 4.0)
  /** The standalone scene: metres and seconds, eye level 1.6. */
  const SceneConstants := Constants(1.5, 4.0, 5.0, 9.81, 1.6)

  /** Initial camera heights. */
  const PageStartY: real := 2.0
  const SceneStartY: real := 1.6

  predicate Sensible(c: Constants) {
    0.0 < c.walkSpeed < c.sprintSpeed && 0.0 < c.jumpForce && 0.0 < c.gravity
  }

  /**
   * Both copies of the constants meet the assumptions that `Speed` and
   * `RestingStaysOnFloor` make, and the two start heights relate to their
   * floors as stated: the scene starts on it, the page below it.
   */
  lemma BothCopiesSensible()
    ensures Sensible(PageConstants) && Sensible(SceneConstants)
    ensures SceneStartY == SceneConstants.floorY && PageStartY < PageConstants.floorY
  {
  }

  /** The keys read at the start of a frame. */
  datatype Keys = Keys(forward: bool, backward: bool, left: bool, right: bool, sprint: bool, jump: bool)

  /**
   * One frame: its duration in seconds, and the vertical displacement that
   * the camera-local horizontal move causes when the camera is pitched (0 for
   * a level camera; the camera orientation is outside this model).
   */
  datatype Frame = Frame(keys: Keys, delta: real, lift: real)

  /** The player's refs and the camera height. */
  datatype Body = Body(y: real, velocityY: real, isJumping: bool, hasMoved: bool)

  /** Commands a frame issues. */
  datatype Effect =
    | StopWindGrass                                             // stop the ambient wind sound
    | Translate(dirX: int, dirZ: int, speed: real, delta: real)  // camera-local move by the un-normalised direction

  datatype FrameResult = FrameResult(body: Body, effects: seq<Effect>)

  /** Sprint selects the sprint speed, otherwise the walk speed. */
  function Speed(c: Constants, k: Keys): (s: real)
    ensures Sensible(c) ==> (s > c.walkSpeed <==> k.sprint)
    ensures s == c.walkSpeed || s == c.sprintSpeed
  {
    if k.sprint then c.sprintSpeed else c.walkSpeed
  }

  /** `Number(Boolean(b))`. */
  function Bit(b: bool): (n: int)
    ensures 0 <= n <= 1 && (n == 1 <==> b)
  {
    if b then 1 else 0
  }

  /** The direction before normalisation: right minus left, forward minus backward. */
  function Direction(k: Keys): (d: (int, int))
    ensures -1 <= d.0 <= 1 && -1 <= d.1 <= 1
    ensures d.0 == 0 <==> k.right == k.left
    ensures d.1 == 0 <==> k.forward == k.backward
    ensures d.0 == 1 <==> k.right && !k.left
    ensures d.1 == 1 <==> k.forward && !k.backward
  {
    (Bit(k.right) - Bit(k.left), Bit(k.forward) - Bit(k.backward))
  }

  predicate Moving(k: Keys) {
    k.forward || k.backward || k.left || k.right
  }

  /** A jump starts only from an unlatched state. */
  predicate JumpStarts(b: Body, k: Keys) {
    k.jump && !b.isJumping
  }

  /** The height before the floor check: optional jump impulse, gravity, then integration. */
  function FreeY(c: Constants, b: Body, f: Frame): real {
    var y0 := if Moving(f.keys) then b.y + f.lift else b.y;
    var vy := (if JumpStarts(b, f.keys) then c.jumpForce else b.velocityY) - c.gravity * f.delta;
    y0 + vy * f.delta
  }

  /** The movement block: first-move sound stop, then a camera-local move. */
  function Walk(c: Constants, b: Body, f: Frame): (r: FrameResult)
    ensures !Moving(f.keys) ==> r == FrameResult(b, [])
    ensures Moving(f.keys) ==> r.body == b.(y := b.y + f.lift, hasMoved := true)
    ensures Moving(f.keys) ==>
      r.effects != [] && r.effects[|r.effects| - 1] == Translate(Direction(f.keys).0, Direction(f.keys).1, Speed(c, f.keys), f.delta)
  {
    var k := f.keys;
    if Moving(k) then
      var dir := Direction(k);
      FrameResult(
        b.(y := b.y + f.lift, hasMoved := true),
        (if !b.hasMoved then [StopWindGrass] else []) + [Translate(dir.0, dir.1, Speed(c, k), f.delta)])
    else
      FrameResult(b, [])
  }

  /** The jump block: impulse and latch, only from an unlatched state. */
  function Jump(c: Constants, b: Body, k: Keys): (r: Body)
    ensures JumpStarts(b, k) ==> r.velocityY == c.jumpForce && r.isJumping
    ensures !JumpStarts(b, k) ==> r == b
    ensures r.y == b.y && r.hasMoved == b.hasMoved
  {
    if JumpStarts(b, k) then b.(velocityY := c.jumpForce, isJumping := true) else b
  }

  /** Gravity, integration and the floor check. */
  function Fall(c: Constants, b: Body, delta: real): (r: Body)
    ensures r.y >= c.floorY && r.hasMoved == b.hasMoved
    ensures r.y == c.floorY || (r.velocityY == b.velocityY - c.gravity * delta && r.y == b.y + r.velocityY * delta)
    ensures b.y + (b.velocityY - c.gravity * delta) * delta < c.floorY ==> r.velocityY == 0.0 && !r.isJumping
  {
    var vy := b.velocityY - c.gravity * delta;
    var y := b.y + vy * delta;
    if y < c.floorY then b.(y := c.floorY, velocityY := 0.0, isJumping := false)
    else b.(y := y, velocityY := vy)
  }

  /** One call of the player's frame callback. */
  function Step(c: Constants, b: Body, f: Frame): (r: FrameResult)
    ensures r.body.y >= c.floorY
    ensures r.body.y == c.floorY || r.body.y == FreeY(c, b, f)
    ensures FreeY(c, b, f) < c.floorY ==> r.body.y == c.floorY && r.body.velocityY == 0.0 && !r.body.isJumping
    ensures r.body.hasMoved <==> b.hasMoved || Moving(f.keys)
    ensures StopWindGrass in r.effects <==> Moving(f.keys) && !b.hasMoved
    ensures !Moving(f.keys) ==> r.effects == []
  {
    var w := Walk(c, b, f);
    var j := Jump(c, w.body, f.keys);
    var y := j.y + (j.velocityY - c.gravity * f.delta) * f.delta;
    assert y == FreeY(c, b, f);
    var landed := Fall(c, j, f.delta);
    assert landed.y == if y < c.floorY then c.floorY else y;
    FrameResult(landed, w.effects)
  }

  /** While the jump latch is set the jump key has no effect. */
  lemma JumpIgnoredWhileLatched(c: Constants, b: Body, f: Frame)
    requires b.isJumping
    ensures Step(c, b, f) == Step(c, b, f.(keys := f.keys.(jump := false)))
  {
    var g := f.(keys := f.keys.(jump := false));
    assert Moving(g.keys) == Moving(f.keys) && Direction(g.keys) == Direction(f.keys);
    assert Speed(c, g.keys) == Speed(c, f.keys);
  }

  /** A jump from the ground sets the impulse and the latch; gravity is applied to it in the same frame. */
  lemma JumpFromUnlatched(c: Constants, b: Body, f: Frame)
    requires f.keys.jump && !b.isJumping && FreeY(c, b, f) >= c.floorY
    ensures Step(c, b, f).body.velocityY == c.jumpForce - c.gravity * f.delta
    ensures Step(c, b, f).body.isJumping
  {
  }

  /**
   * Without a jump and above the floor, walking or not, each frame lowers the
   * vertical speed by gravity times delta, then moves the height reached by
   * the walk by the new speed.
   */
  lemma GravityThenIntegrate(c: Constants, b: Body, f: Frame)
    requires !JumpStarts(b, f.keys) && FreeY(c, b, f) >= c.floorY
    ensures Step(c, b, f).body.velocityY == b.velocityY - c.gravity * f.delta
    ensures Step(c, b, f).body.y == Walk(c, b, f).body.y + Step(c, b, f).body.velocityY * f.delta
  {
  }

  /** With no movement key held the frame issues no move and no sound command. */
  lemma NoKeysNoWalk(c: Constants, b: Body, f: Frame)
    requires !Moving(f.keys)
    ensures Step(c, b, f).effects == []
    ensures Step(c, b, f).body.hasMoved == b.hasMoved
  {
  }

  /** A player standing on the floor with no jump stays on the floor at rest. */
  lemma RestingStaysOnFloor(c: Constants, b: Body, f: Frame)
    requires Sensible(c) && b.y == c.floorY && b.velocityY == 0.0 && !b.isJumping
    requires !f.keys.jump && !Moving(f.keys) && f.delta >= 0.0
    ensures Step(c, b, f).body == b
  {
    assert FreeY(c, b, f) == c.floorY - c.gravity * f.delta * f.delta;
    assert c.gravity * f.delta * f.delta >= 0.0 by {
      assert c.gravity * f.delta >= 0.0;
    }
  }

  /**
   * The page's camera starts at 2, below its floor of 4; however long the
   * first frame and whether or not it jumps, a jump of force 10 under gravity
   * 25 rises at most 1 in a frame, so a frame without a move snaps it to 4.
   */
  lemma PageFirstFrameSnapsToFloor(b: Body, f: Frame)
    requires b.y == PageStartY && b.velocityY == 0.0 && !b.isJumping
    requires !Moving(f.keys) && f.delta >= 0.0
    ensures Step(PageConstants, b, f).body.y == PageConstants.floorY
    ensures Step(PageConstants, b, f).body.velocityY == 0.0 && !Step(PageConstants, b, f).body.isJumping
  {
    var d := f.delta;
    assert (5.0 * d - 1.0) * (5.0 * d - 1.0) >= 0.0;
    if f.keys.jump {
      assert FreeY(PageConstants, b, f) == 2.0 + (10.0 - 25.0 * d) * d;
      assert (10.0 - 25.0 * d) * d == 1.0 - (5.0 * d - 1.0) * (5.0 * d - 1.0);
    } else {
      assert FreeY(PageConstants, b, f) == 2.0 - 25.0 * d * d;
      assert 25.0 * d * d >= 0.0 by {
        assert d * d >= 0.0;
      }
    }
  }

  /** A run of frames. */
  function Run(c: Constants, b: Body, frames: seq<Frame>): FrameResult
    decreases |frames|
  {
    if frames == [] then FrameResult(b, [])
    else
      var first := Step(c, b, frames[0]);
      var rest := Run(c, first.body, frames[1..]);
      FrameResult(rest.body, first.effects + rest.effects)
  }

  /** After any run the camera is at or above the floor, provided it started there. */
  lemma {:induction false} RunStaysAboveFloor(c: Constants, b: Body, frames: seq<Frame>)
    requires b.y >= c.floorY
    ensures Run(c, b, frames).body.y >= c.floorY
    decreases |frames|
  {
    if frames != [] {
      RunStaysAboveFloor(c, Step(c, b, frames[0]).body, frames[1..]);
    }
  }

  /** A frame issues the wind stop exactly when it sets the moved flag. */
  lemma StepCountsWindStop(c: Constants, b: Body, f: Frame)
    ensures Count(Step(c, b, f).effects, StopWindGrass) + B2I(b.hasMoved) == B2I(Step(c, b, f).body.hasMoved)
  {
    var k := f.keys;
    if Moving(k) {
      var dir := Direction(k);
      var move := [Translate(dir.0, dir.1, Speed(c, k), f.delta)];
      var stop := if !b.hasMoved then [StopWindGrass] else [];
      assert Step(c, b, f).effects == Walk(c, b, f).effects == stop + move;
      CountAppend(stop, move, StopWindGrass);
      assert Count(move, StopWindGrass) == 0;
    }
  }

  /** Over a whole mount the wind stop is issued at most once: exactly when the moved flag first rises. */
  lemma {:induction false} WindStopAtMostOnce(c: Constants, b: Body, frames: seq<Frame>)
    ensures Count(Run(c, b, frames).effects, StopWindGrass) + B2I(b.hasMoved) == B2I(Run(c, b, frames).body.hasMoved)
    ensures Count(Run(c, b, frames).effects, StopWindGrass) <= 1
    decreases |frames|
  {
    if frames != [] {
      var first := Step(c, b, frames[0]);
      StepCountsWindStop(c, b, frames[0]);
      WindStopAtMostOnce(c, first.body, frames[1..]);
      CountAppend(first.effects, Run(c, first.body, frames[1..]).effects, StopWindGrass);
    }
  }

  /** The player component: refs and camera height updated in place each frame. */
  class Player {
    const constants: Constants
    var y: real
    var velocityY: real
    var isJumping: bool
    var hasMoved: bool
    /** Commands issued so far. */
    var effects: seq<Effect>

    function State(): Body
      reads this
    {
      Body(y, velocityY, isJumping, hasMoved)
    }

    constructor (constants: Constants, startY: real)
      ensures this.constants == constants && State() == Body(startY, 0.0, false, false) && effects == []
    {
      this.constants := constants;
      y, velocityY, isJumping, hasMoved := startY, 0.0, false, false;
      effects := [];
    }

    /** The `useFrame` callback. */
    method OnFrame(f: Frame)
      modifies this
      ensures State() == Step(constants, old(State()), f).body
      ensures effects == old(effects) + Step(constants, old(State()), f).effects
    {
      MoveBlock(f);
      JumpBlock(f.keys);
      FallBlock(f.delta);
    }

    method MoveBlock(f: Frame)
      modifies this
      ensures State() == Walk(constants, old(State()), f).body
      ensures effects == old(effects) + Walk(constants, old(State()), f).effects
    {
      var k := f.keys;
      var speed := if k.sprint then constants.sprintSpeed else constants.walkSpeed;
      var dirX := Bit(k.right) - Bit(k.left);
      var dirZ := Bit(k.forward) - Bit(k.backward);
      if k.forward || k.backward || k.left || k.right {
        var issued: seq<Effect> := [];
        if !hasMoved {
          issued := [StopWindGrass];
          hasMoved := true;
        }
        effects := effects + (issued + [Translate(dirX, dirZ, speed, f.delta)]);
        y := y + f.lift;
      }
    }

    method JumpBlock(k: Keys)
      modifies this
      ensures State() == Jump(constants, old(State()), k) && effects == old(effects)
    {
      if k.jump && !isJumping {
        velocityY := constants.jumpForce;
        isJumping := true;
      }
    }

    method FallBlock(delta: real)
      modifies this
      ensures State() == Fall(constants, old(State()), delta) && effects == old(effects)
    {
      velocityY := velocityY - constants.gravity * delta;
      y := y + velocityY * delta;
      if y < constants.floorY {
        y := constants.floorY;
        velocityY := 0.0;
        isJumping := false;
      }
    }
  }

  /** The page's pointer-lock flags and the number of pending one-second re-enable timers. */
  datatype LockState = LockState(isLocked: bool, canLock: bool, pendingTimers: nat)

  const InitialLock := LockState(false, true, 0)

  /** A lock may be taken exactly when no re-enable timer is pending, and at most one is pending. */
  predicate LockValid(s: LockState) {
    (s.canLock <==> s.pendingTimers == 0) && s.pendingTimers <= 1
  }

  /** `handleLock`: ignored during the cooldown; otherwise lock, close the gate and schedule its reopening. */
  function Lock(s: LockState): (r: LockState)
    ensures !s.canLock ==> r == s
    ensures s.canLock ==> r.isLocked && !r.canLock && r.pendingTimers == s.pendingTimers + 1
    ensures LockValid(s) ==> LockValid(r)
  {
    if !s.canLock then s else LockState(true, false, s.pendingTimers + 1)
  }

  /** `handleUnlock`: leaves the cooldown alone. */
  function Unlock(s: LockState): (r: LockState)
    ensures !r.isLocked && r.canLock == s.canLock && r.pendingTimers == s.pendingTimers
    ensures LockValid(s) ==> LockValid(r)
  {
    s.(isLocked := false)
  }

  /** The one-second timer fires: the gate reopens. */
  function TimerFires(s: LockState): (r: LockState)
    requires s.pendingTimers > 0
    ensures r.canLock && r.isLocked == s.isLocked && r.pendingTimers == s.pendingTimers - 1
    ensures LockValid(s) ==> LockValid(r)
  {
    LockState(s.isLocked, true, s.pendingTimers - 1)
  }

  /** A second lock request inside the cooldown, even after an unlock, changes nothing. */
  lemma DoubleLockIgnored(s: LockState)
    requires LockValid(s)
    ensures Lock(Lock(s)) == Lock(s)
    ensures Lock(Unlock(Lock(s))) == Unlock(Lock(s))
  {
  }

  /** The page's lock handlers, updating their flags in place. */
  class LockControl {
    var isLocked: bool
    var canLock: bool
    var pendingTimers: nat

    function State(): LockState
      reads this
    {
      LockState(isLocked, canLock, pendingTimers)
    }

    constructor ()
      ensures State() == InitialLock && LockValid(State())
    {
      isLocked, canLock, pendingTimers := false, true, 0;
    }

    method HandleLock()
      modifies this
      ensures State() == Lock(old(State()))
    {
      if !canLock {
        return;
      }
      isLocked := true;
      canLock := false;
      pendingTimers := pendingTimers + 1;
    }

    method HandleUnlock()
      modifies this
      ensures State() == Unlock(old(State()))
    {
      isLocked := false;
    }

    /** The scheduled `setCanLock(true)` runs. */
    method CooldownElapsed()
      requires pendingTimers > 0
      modifies this
      ensures State() == TimerFires(old(State()))
    {
      canLock := true;
      pendingTimers := pendingTimers - 1;
    }
  }

  /** The page's key handler: Escape navigates home, any other key does nothing. */
  function KeyDownRoute(key: string): (route: Option<string>)
    ensures route.Some? <==> key == "Escape"
    ensures route.Some? ==> route.value == "/"
  {
    if key == "Escape" then Some("/") else None
  }
}
