/** src/main.go, the later revision: the capped counter behind the lives
    and health bars, the player's movement state machine and the creature
    patrol. Each class method is tied to a function on values that says
    what the operation promises. */
module LateActors {
  import opened Common
  import opened Animation

  // ---------------------------------------------------------------------
  // LivesBar: a counter `avail` capped by `max`

  datatype Counter = Counter(avail: int, max: int) {
    predicate Valid() {
      0 <= avail <= max
    }
  }

  /** SetAvailable clamps the new value into [0, max]. */
  function AfterSetAvailable(c: Counter, avail: int): (r: Counter)
    ensures r.max == c.max
    ensures c.max >= 0 ==> r.Valid()
    ensures 0 <= avail <= c.max ==> r.avail == avail
    ensures avail > c.max && c.max >= 0 ==> r.avail == c.max
    ensures avail < 0 ==> r.avail == 0
  {
    var a := if avail > c.max then c.max else avail;
    c.(avail := if a < 0 then 0 else a)
  }

  /** SetMax clamps the new cap at 0 and lowers avail to it when needed. */
  function AfterSetMax(c: Counter, max: int): (r: Counter)
    ensures r.max == if max < 0 then 0 else max
    ensures c.avail >= 0 ==> r.Valid()
    ensures c.avail <= r.max ==> r.avail == c.avail
    ensures c.avail > r.max ==> r.avail == r.max
  {
    var m := if max < 0 then 0 else max;
    Counter(if c.avail > m then m else c.avail, m)
  }

  /** The bar's numbers; drawing it is not part of this model. */
  class LivesBar {
    var avail: int
    var max: int

    ghost predicate Valid()
      reads this
    {
      Numbers().Valid()
    }

    function Numbers(): Counter
      reads this
    {
      Counter(avail, max)
    }

    constructor (avail: int, max: int)
      ensures Numbers() == Counter(avail, max)
    {
      this.avail, this.max := avail, max;
    }

    /** Stores the clamped value and returns exactly what it stored. */
    method SetAvailable(a: int) returns (stored: int)
      modifies this
      ensures Numbers() == AfterSetAvailable(old(Numbers()), a)
      ensures stored == avail
    {
      stored := a;
      if stored > max {
        stored := max;
      }
      if stored < 0 {
        stored := 0;
      }
      avail := stored;
    }

    method SetMax(m: int) returns (stored: int)
      modifies this
      ensures Numbers() == AfterSetMax(old(Numbers()), m)
      ensures stored == max
    {
      stored := m;
      if stored < 0 {
        stored := 0;
      }
      if avail > stored {
        avail := stored;
      }
      max := stored;
    }
  }

  // ---------------------------------------------------------------------
  // Player: facing x motion state bits and the velocity rules

  /** JumpSpeed, WalkSpeed, RunSpeed, Acceleration, Deceleration of NewPlayer. */
  const PlayerTuning: Tuning := Tuning(1.2, 0.03, 0.6, 0.001, 0.001)

  /** How long a hit keeps the player invincible, in milliseconds. */
  const InvincibleFor: int := 200

  /** Jump only takes off from a state without JUMPING. */
  function Jumped(p: Pose, t: Tuning): (r: Pose)
    ensures p.state.jumping ==> r == p
    ensures !p.state.jumping ==>
              && r.body == p.body.(vy := -t.jumpSpeed)
              && r.state == Flags(p.state.left, p.state.right, false, false, true)
  {
    if !p.state.jumping then
      Pose(p.body.(vy := -t.jumpSpeed), p.state.(stopped := false, walking := false, jumping := true))
    else p
  }

  /** Left accelerates leftward, holding the speed between WalkSpeed and
      RunSpeed, and turns the player to walk left; JUMPING is kept. */
  function MovedLeft(p: Pose, ms: real, t: Tuning): (r: Pose)
    ensures t.walkSpeed <= t.runSpeed ==> -t.runSpeed <= r.body.vx <= -t.walkSpeed
    ensures var v := p.body.vx - t.acceleration * ms;
            -t.runSpeed <= v <= -t.walkSpeed ==> r.body.vx == v
    ensures var v := p.body.vx - t.acceleration * ms;
            t.walkSpeed <= t.runSpeed ==>
              (v > -t.walkSpeed ==> r.body.vx == -t.walkSpeed) && (v < -t.runSpeed ==> r.body.vx == -t.runSpeed)
    ensures r.body == p.body.(vx := r.body.vx)
    ensures r.state == Flags(true, false, false, true, p.state.jumping)
  {
    var v := p.body.vx - t.acceleration * ms;
    Pose(p.body.(vx := Max(-t.runSpeed, Min(-t.walkSpeed, v))),
         p.state.(right := false, stopped := false, left := true, walking := true))
  }

  /** Right mirrors Left. */
  function MovedRight(p: Pose, ms: real, t: Tuning): (r: Pose)
    ensures t.walkSpeed <= t.runSpeed ==> t.walkSpeed <= r.body.vx <= t.runSpeed
    ensures var v := p.body.vx + t.acceleration * ms;
            t.walkSpeed <= v <= t.runSpeed ==> r.body.vx == v
    ensures var v := p.body.vx + t.acceleration * ms;
            t.walkSpeed <= t.runSpeed ==>
              (v < t.walkSpeed ==> r.body.vx == t.walkSpeed) && (v > t.runSpeed ==> r.body.vx == t.runSpeed)
    ensures r.body == p.body.(vx := r.body.vx)
    ensures r.state == Flags(false, true, false, true, p.state.jumping)
  {
    var v := p.body.vx + t.acceleration * ms;
    Pose(p.body.(vx := Min(t.runSpeed, Max(t.walkSpeed, v))),
         p.state.(left := false, stopped := false, right := true, walking := true))
  }

  /** Slow brakes by Deceleration*ms; within one step of zero it stops and
      sets STOPPED (clearing WALKING only). */
  function Slowed(p: Pose, ms: real, t: Tuning): (r: Pose)
    ensures r.body == p.body.(vx := r.body.vx)
    ensures Abs(p.body.vx) <= t.deceleration * ms ==>
              r.body.vx == 0.0 && r.state == p.state.(stopped := true, walking := false)
    ensures Abs(p.body.vx) > t.deceleration * ms ==>
              && Abs(r.body.vx) == Abs(p.body.vx) - t.deceleration * ms
              && (p.body.vx > 0.0 ==> r.body.vx > 0.0) && (p.body.vx < 0.0 ==> r.body.vx < 0.0)
              && r.state == p.state
  {
    if Abs(p.body.vx) <= t.deceleration * ms then
      Pose(p.body.(vx := 0.0), p.state.(walking := false, stopped := true))
    else if p.body.vx > 0.0 then
      Pose(p.body.(vx := p.body.vx - t.deceleration * ms), p.state)
    else
      Pose(p.body.(vx := p.body.vx + t.deceleration * ms), p.state)
  }

  /** Braking never speeds the player up. */
  lemma SlowNeverSpeedsUp(p: Pose, ms: real, t: Tuning)
    requires t.deceleration * ms >= 0.0
    ensures Abs(Slowed(p, ms, t).body.vx) <= Abs(p.body.vx)
  {
  }

  /** Rebound throws the player away from a creature at (cx, cy): sideways at
      RunSpeed, vertically at JumpSpeed, and into the JUMPING state. */
  function Rebounded(p: Pose, cx: real, cy: real, t: Tuning): (r: Pose)
    ensures cx >= p.body.x ==> r.body.vx == -t.runSpeed
    ensures cx < p.body.x ==> r.body.vx == t.runSpeed
    ensures cy >= p.body.y ==> r.body.vy == -t.jumpSpeed
    ensures cy < p.body.y ==> r.body.vy == t.jumpSpeed
    ensures r.body == p.body.(vx := r.body.vx, vy := r.body.vy)
    ensures r.state == Flags(p.state.left, p.state.right, false, false, true)
  {
    Pose(p.body.(vx := if cx >= p.body.x then -t.runSpeed else t.runSpeed,
                 vy := if cy >= p.body.y then -t.jumpSpeed else t.jumpSpeed),
         p.state.(stopped := false, walking := false, jumping := true))
  }

  /** Bounce off a creature at height cy: vertical launch away from it, two
      pixels of clearance, no horizontal speed, JUMPING. */
  function Bounced(p: Pose, cy: real, t: Tuning): (r: Pose)
    ensures cy >= p.body.y ==> r.body.vy == -t.jumpSpeed && r.body.y == p.body.y - 2.0
    ensures cy < p.body.y ==> r.body.vy == t.jumpSpeed && r.body.y == p.body.y + 2.0
    ensures r.body.vx == 0.0 && r.body.x == p.body.x
    ensures r.body == p.body.(vx := 0.0, vy := r.body.vy, y := r.body.y)
    ensures r.state == Flags(p.state.left, p.state.right, false, false, true)
  {
    var b := if cy >= p.body.y then p.body.(vy := -t.jumpSpeed, y := p.body.y - 2.0)
             else p.body.(vy := t.jumpSpeed, y := p.body.y + 2.0);
    Pose(b.(vx := 0.0), p.state.(stopped := false, walking := false, jumping := true))
  }

  /** Die: the player stops colliding, loses its x speed and flies up at
      JumpSpeed; its place and state bits stay. */
  function Died(p: Pose, t: Tuning): (r: Pose)
    ensures !r.body.collide && r.body.vx == 0.0 && r.body.vy == -t.jumpSpeed
    ensures r.body.x == p.body.x && r.body.y == p.body.y && r.body.w == p.body.w && r.body.h == p.body.h
    ensures r.state == p.state
  {
    Pose(p.body.(collide := false, vy := -t.jumpSpeed, vx := 0.0), p.state)
  }

  /** Landing (a bottom hit) clears JUMPING and nothing else. */
  function Landed(s: Flags, result: Sides): (r: Flags)
    ensures result.bottom ==> r == s.(jumping := false)
    ensures !result.bottom ==> r == s
  {
    if result.bottom then s.(jumping := false) else s
  }

  /** The later CheckKeys: Up without Down jumps; Left or Right alone
      accelerate; anything else brakes. */
  function AfterKeys(p: Pose, keys: Keys, ms: real, t: Tuning): (r: Pose)
    ensures var j := if keys.up && !keys.down then Jumped(p, t) else p;
            && (keys.left && !keys.right ==> r == MovedLeft(j, ms, t))
            && (!keys.left && keys.right ==> r == MovedRight(j, ms, t))
            && (keys.left == keys.right ==> r == Slowed(j, ms, t))
  {
    var j := if keys.up && !keys.down then Jumped(p, t) else p;
    if keys.left && !keys.right then MovedLeft(j, ms, t)
    else if !keys.left && keys.right then MovedRight(j, ms, t)
    else Slowed(j, ms, t)
  }

  /** Nothing shuts the keys off once the player is dying: Left alone still
      turns a dying player left and drives it at walking speed or more
      while it falls through the level. */
  lemma DyingPlayerSteers(p: Pose, ms: real)
    ensures var r := AfterKeys(Died(p, PlayerTuning), Keys(false, false, true, false), ms, PlayerTuning);
            && !r.body.collide && r.body.vx <= -PlayerTuning.walkSpeed
            && r.state.left && !r.state.right && r.state.walking
  {
  }

  /** Exactly one facing bit survives every player transition. */
  lemma FacingStaysExclusive(p: Pose, t: Tuning, ms: real, cx: real, cy: real, result: Sides, keys: Keys)
    requires p.state.OneFacing()
    ensures Jumped(p, t).state.OneFacing() && MovedLeft(p, ms, t).state.OneFacing()
    ensures MovedRight(p, ms, t).state.OneFacing() && Slowed(p, ms, t).state.OneFacing()
    ensures Rebounded(p, cx, cy, t).state.OneFacing() && Bounced(p, cy, t).state.OneFacing()
    ensures Landed(p.state, result).OneFacing() && AfterKeys(p, keys, ms, t).state.OneFacing()
  {
  }

  /** The motion group is not exclusive in this revision: jumping while
      walking left gives JUMPING | WALKING, and a landing that clears
      JUMPING can leave no motion bit at all. */
  lemma MotionBitsNotExclusive(p: Pose, ms: real)
    requires p.state == StoppedRight
    ensures var j := MovedLeft(Jumped(p, PlayerTuning), ms, PlayerTuning).state;
            j.jumping && j.walking
    ensures var k := Jumped(p, PlayerTuning).state;
            Landed(k, NoHit.(bottom := true)) == Flags(false, true, false, false, false)
  {
  }

  class Player {
    const sprite: Sprite
    var state: Flags
    var lastState: Flags
    const tuning: Tuning
    var nextFrame: int
    var frameCounter: int
    const startX: real
    const startY: real
    var invincible: bool
    var vincibleat: int

    ghost predicate Valid()
      reads this
    {
      state.OneFacing() && 0 <= frameCounter < 1000
    }

    function Snapshot(): Pose
      reads this, sprite
    {
      Pose(sprite.Snapshot(), state)
    }

    function Clock(): Ticker
      reads this, sprite
    {
      Ticker(sprite.frame, nextFrame, frameCounter, lastState)
    }

    /** NewPlayer at a START tile whose top is at y: the sprite stands on it,
        facing right; (x, y) is remembered as the respawn point. */
    constructor (x: real, y: real, w: real, h: real, now: int)
      ensures Valid() && fresh(sprite)
      ensures sprite.Snapshot() == Body(x, y - h, w, h, 0.0, 0.0, true) && sprite.frame == 0
      ensures state == StoppedRight && lastState == StoppedRight && tuning == PlayerTuning
      ensures nextFrame == now && frameCounter == 0
      ensures startX == x && startY == y && !invincible
    {
      sprite := new Sprite(x, y - h, w, h);
      state, lastState := StoppedRight, StoppedRight;
      tuning := PlayerTuning;
      nextFrame, frameCounter := now, 0;
      startX, startY := x, y;
      invincible, vincibleat := false, now;
    }

    /** Everything but the velocity, position and state stays as it was. */
    twostate predicate OnlyMotion()
      reads this, sprite
    {
      && Clock() == old(Clock()) && invincible == old(invincible) && vincibleat == old(vincibleat)
      && sprite.collide == old(sprite.collide)
    }

    method SetInvincible(now: int)
      modifies this
      ensures invincible && vincibleat == now + InvincibleFor
      ensures state == old(state) && lastState == old(lastState)
      ensures nextFrame == old(nextFrame) && frameCounter == old(frameCounter)
    {
      invincible := true;
      vincibleat := now + InvincibleFor;
    }

    /** Back to the respawn point, standing still and colliding again. */
    method Respawn()
      modifies sprite
      ensures sprite.Snapshot() == old(sprite.Snapshot()).(x := startX, y := startY, vx := 0.0, vy := 0.0, collide := true)
      ensures sprite.frame == old(sprite.frame)
    {
      sprite.collide := true;
      sprite.vy := 0.0;
      sprite.vx := 0.0;
      sprite.MoveTo(startX, startY);
    }

    /** Dying: stop colliding and fly up and off the map. */
    method Die()
      modifies sprite
      ensures Snapshot() == Died(old(Snapshot()), tuning)
      ensures sprite.frame == old(sprite.frame)
    {
      sprite.collide := false;
      sprite.vy := -tuning.jumpSpeed;
      sprite.vx := 0.0;
    }

    method Jump()
      requires Valid()
      modifies this, sprite
      ensures Valid() && Snapshot() == Jumped(old(Snapshot()), tuning) && OnlyMotion()
    {
      if !state.jumping {
        sprite.vy := -tuning.jumpSpeed;
        state := state.(stopped := false, walking := false);
        state := state.(jumping := true);
      }
    }

    method Left(ms: real)
      requires Valid()
      modifies this, sprite
      ensures Valid() && Snapshot() == MovedLeft(old(Snapshot()), ms, tuning) && OnlyMotion()
    {
      var v := sprite.vx - tuning.acceleration * ms;
      sprite.vx := Max(-tuning.runSpeed, Min(-tuning.walkSpeed, v));
      state := state.(right := false, stopped := false);
      state := state.(left := true, walking := true);
    }

    method Right(ms: real)
      requires Valid()
      modifies this, sprite
      ensures Valid() && Snapshot() == MovedRight(old(Snapshot()), ms, tuning) && OnlyMotion()
    {
      var v := sprite.vx + tuning.acceleration * ms;
      sprite.vx := Min(tuning.runSpeed, Max(tuning.walkSpeed, v));
      state := state.(left := false, stopped := false);
      state := state.(right := true, walking := true);
    }

    method Slow(ms: real)
      requires Valid()
      modifies this, sprite
      ensures Valid() && Snapshot() == Slowed(old(Snapshot()), ms, tuning) && OnlyMotion()
    {
      if Abs(sprite.vx) <= tuning.deceleration * ms {
        sprite.vx := 0.0;
        state := state.(walking := false);
        state := state.(stopped := true);
      } else {
        if sprite.vx > 0.0 {
          sprite.vx := sprite.vx - tuning.deceleration * ms;
        } else {
          sprite.vx := sprite.vx + tuning.deceleration * ms;
        }
      }
    }

    /** Rebound(c), given the creature's position. */
    method Rebound(cx: real, cy: real)
      requires Valid()
      modifies this, sprite
      ensures Valid() && Snapshot() == Rebounded(old(Snapshot()), cx, cy, tuning) && OnlyMotion()
    {
      if cx >= sprite.x {
        sprite.vx := -tuning.runSpeed;
      } else {
        sprite.vx := tuning.runSpeed;
      }
      if cy >= sprite.y {
        sprite.vy := -tuning.jumpSpeed;
      } else {
        sprite.vy := tuning.jumpSpeed;
      }
      state := state.(stopped := false, walking := false);
      state := state.(jumping := true);
    }

    /** Bounce(c), given the creature's height. */
    method Bounce(cy: real)
      requires Valid()
      modifies this, sprite
      ensures Valid() && Snapshot() == Bounced(old(Snapshot()), cy, tuning) && OnlyMotion()
    {
      if cy >= sprite.y {
        sprite.vy := -tuning.jumpSpeed;
        sprite.Move(0.0, -2.0);
      } else {
        sprite.vy := tuning.jumpSpeed;
        sprite.Move(0.0, 2.0);
      }
      sprite.vx := 0.0;
      state := state.(stopped := false, walking := false);
      state := state.(jumping := true);
    }

    /** Per-frame update after the sprite moved: landing, animation, and the
        end of the invincibility window. */
    method Update(result: Sides, ms: real, now: int)
      requires Valid()
      modifies this, sprite
      ensures Valid()
      ensures state == Landed(old(state), result)
      ensures Clock() == Advance(old(Clock()), state, PlayerAnimations, now)
      ensures invincible == (old(invincible) && now <= vincibleat) && vincibleat == old(vincibleat)
      ensures sprite.Snapshot() == old(sprite.Snapshot())
    {
      PlayerAnimationsPlayable();
      if result.bottom {
        state := state.(jumping := false);
      }
      if now > nextFrame || lastState != state {
        if state in PlayerAnimations {
          var anim := PlayerAnimations[state];
          var i := frameCounter % |anim.frames|;
          sprite.SetFrame(anim.frames[i]);
          nextFrame := now + anim.duration;
        }
        frameCounter := (frameCounter + 1) % 1000;
        lastState := state;
      }
      if invincible && now > vincibleat {
        invincible := false;
      }
    }
  }

  // ---------------------------------------------------------------------
  // Creature: patrol that turns at walls and damps back to its speed

  const MushroomKind: int := 0
  const SmallMushroomKind: int := 1

  const FacingLeftOnly: Flags := Flags(true, false, false, false, false)
  const FacingRightOnly: Flags := Flags(false, true, false, false, false)

  /** NewMushroom's animation table (FACING_LEFT and FACING_RIGHT). */
  const CreatureAnimations: map<Flags, Anim> := map[
    FacingLeftOnly := Anim([0, 1], 120),
    FacingRightOnly := Anim([2, 3], 120)
  ]

  lemma CreatureAnimationsPlayable()
    ensures Playable(CreatureAnimations)
  {
  }

  datatype Patrol = Patrol(vx: real, state: Flags)

  /** What a frame can change of a creature: its pose and its animation clock. */
  datatype CreatureView = CreatureView(pose: Pose, clock: Ticker)

  /** Creature.Update's steering: a right hit turns it left at full speed, a
      left hit turns it right (a right hit wins when both are set); then the
      speed is damped a tenth of the way back toward `speed`. */
  function Patrolled(p: Patrol, speed: real, result: Sides): (r: Patrol)
    requires speed >= 0.0
    ensures result.right ==> r == Patrol(-speed, p.state.(right := false, left := true))
    ensures !result.right && result.left ==> r == Patrol(speed, p.state.(left := false, right := true))
    ensures !result.right && !result.left ==>
              && r.state == p.state
              && Abs(r.vx) - speed == (Abs(p.vx) - speed) * 0.9
              && (p.vx > 0.0 ==> r.vx > 0.0) && (p.vx < 0.0 ==> r.vx < 0.0)
  {
    var turned :=
      if result.right then Patrol(-speed, p.state.(right := false).(left := true))
      else if result.left then Patrol(speed, p.state.(left := false).(right := true))
      else p;
    var diff := Abs(turned.vx) - speed;
    if diff != 0.0 then
      var damp := diff / 10.0;
      if turned.vx > 0.0 then turned.(vx := turned.vx - damp) else turned.(vx := turned.vx + damp)
    else turned
  }

  /** How far a patrol speed is from the creature's own speed. */
  function Gap(p: Patrol, speed: real): real {
    Abs(p.vx) - speed
  }

  /** One frame without a hit shrinks the gap to nine tenths. */
  lemma DampStep(q: Patrol, speed: real)
    requires speed >= 0.0
    ensures Gap(Patrolled(q, speed, NoHit), speed) == 0.9 * Gap(q, speed)
  {
  }

  /** The gap after n frames of nine-tenths damping. */
  function GapAfter(g: real, n: nat): real {
    if n == 0 then g else 0.9 * GapAfter(g, n - 1)
  }

  lemma {:induction false} DampedGap(p: Patrol, speed: real, n: nat)
    requires speed >= 0.0
    ensures Gap(Damped(p, speed, n), speed) == GapAfter(Gap(p, speed), n)
  {
    if n > 0 {
      DampedGap(p, speed, n - 1);
      DampStep(Damped(p, speed, n - 1), speed);
    }
  }

  lemma {:induction false} GapAfterIsPower(g: real, n: nat)
    ensures GapAfter(g, n) == g * Pow9(n)
  {
    if n > 0 {
      GapAfterIsPower(g, n - 1);
      var x := Pow9(n - 1);
      assert 0.9 * (g * x) == g * (0.9 * x);
    }
  }

  /** Repeated damping closes the gap to the patrol speed geometrically. */
  lemma {:induction false} DampingConverges(p: Patrol, speed: real, n: nat)
    requires speed >= 0.0
    ensures Gap(Damped(p, speed, n), speed) == Gap(p, speed) * Pow9(n)
  {
    var g := Gap(p, speed);
    DampedGap(p, speed, n);
    GapAfterIsPower(g, n);
    assert Gap(Damped(p, speed, n), speed) == GapAfter(g, n);
  }

  /** n frames of patrol without any hit. */
  function Damped(p: Patrol, speed: real, n: nat): Patrol
    requires speed >= 0.0
  {
    if n == 0 then p else Patrolled(Damped(p, speed, n - 1), speed, NoHit)
  }

  /** 0.9 to the n-th power. */
  function Pow9(n: nat): (r: real)
    ensures 0.0 < r <= 1.0
  {
    if n == 0 then 1.0 else 0.9 * Pow9(n - 1)
  }

  class Creature {
    const sprite: Sprite
    const kind: int
    const points: int
    var state: Flags
    var lastState: Flags
    const speed: real
    const jumpSpeed: real
    var nextFrame: int
    var frameCounter: int
    var lastSpawn: int

    ghost predicate Valid()
      reads this
    {
      (state == FacingLeftOnly || state == FacingRightOnly) && 0 <= frameCounter < 1000 && speed >= 0.0
    }

    function Clock(): Ticker
      reads this, sprite
    {
      Ticker(sprite.frame, nextFrame, frameCounter, lastState)
    }

    function View(): CreatureView
      reads this, sprite
    {
      CreatureView(Pose(sprite.Snapshot(), state), Clock())
    }

    /** NewMushroom at an enemy tile whose top is at y: facing and walking
        left at 0.05, worth 100 points. */
    constructor Mushroom(x: real, y: real, w: real, h: real, now: int)
      ensures Valid() && fresh(sprite)
      ensures sprite.Snapshot() == Body(x, y - h, w, h, -0.05, 0.0, true) && sprite.frame == 0
      ensures kind == MushroomKind && points == 100 && speed == 0.05 && jumpSpeed == 0.1
      ensures state == FacingLeftOnly && lastState == FacingRightOnly
      ensures nextFrame == now && lastSpawn == now && frameCounter == 0
    {
      var s := new Sprite(x, y - h, w, h);
      s.vx := -0.05;
      sprite := s;
      kind := MushroomKind;
      points := 100;
      state, lastState := FacingLeftOnly, FacingRightOnly;
      speed, jumpSpeed := 0.05, 0.1;
      nextFrame, lastSpawn, frameCounter := now, now, 0;
    }

    /** Animation, then the patrol rule on the collision result. */
    method Update(result: Sides, ms: real, now: int)
      requires Valid()
      modifies this, sprite
      ensures Valid()
      ensures Clock() == Advance(old(Clock()), old(state), CreatureAnimations, now)
      ensures Patrol(sprite.vx, state) == Patrolled(Patrol(old(sprite.vx), old(state)), speed, result)
      ensures sprite.Snapshot() == old(sprite.Snapshot()).(vx := sprite.vx)
      ensures lastSpawn == old(lastSpawn)
    {
      CreatureAnimationsPlayable();
      if now > nextFrame || lastState != state {
        if state in CreatureAnimations {
          var anim := CreatureAnimations[state];
          var i := frameCounter % |anim.frames|;
          sprite.SetFrame(anim.frames[i]);
          nextFrame := now + anim.duration;
        }
        frameCounter := (frameCounter + 1) % 1000;
        lastState := state;
      }
      if result.right {
        state := state.(right := false);
        state := state.(left := true);
        sprite.vx := -speed;
      } else if result.left {
        state := state.(left := false);
        state := state.(right := true);
        sprite.vx := speed;
      }
      var diff := Abs(sprite.vx) - speed;
      if diff != 0.0 {
        var damp := diff / 10.0;
        if sprite.vx > 0.0 {
          sprite.vx := sprite.vx - damp;
        } else {
          sprite.vx := sprite.vx + damp;
        }
      }
    }
  }
}
