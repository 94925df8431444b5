/** main.go, the earlier revision: the lives bar (used and remaining lives,
    unclamped), the player's movement state machine, and the creature record. */
module EarlyActors {
  import opened Common
  import opened Animation

  // ---------------------------------------------------------------------
  // LivesBar: lives used and lives left

  datatype Bar = Bar(used: int, lives: int)

  /** The bar's numbers; drawing it is not part of this model. */
  class LivesBar {
    var used: int
    var lives: int

    function Numbers(): Bar
      reads this
    {
      Bar(used, lives)
    }

    constructor (lives: int, used: int)
      ensures Numbers() == Bar(used, lives)
    {
      this.used, this.lives := used, lives;
    }

    /** SetUsed stores its argument as it is. */
    method SetUsed(used: int)
      modifies this
      ensures Numbers() == old(Numbers()).(used := used)
    {
      this.used := used;
    }

    /** SetLives stores its argument as it is; nothing keeps it non-negative. */
    method SetLives(lives: int)
      modifies this
      ensures Numbers() == old(Numbers()).(lives := lives)
    {
      this.lives := lives;
    }
  }

  // ---------------------------------------------------------------------
  // Player: the earlier rules for the state bits and the velocity

  /** JumpSpeed, WalkSpeed, RunSpeed, Acceleration, Deceleration of NewPlayer. */
  const PlayerTuning: Tuning := Tuning(0.8, 0.05, 0.8, 0.001, 0.001)

  /** Jump always applies: it sets the take-off speed and JUMPING, clears
      STOPPED and leaves WALKING and the facing bits alone. */
  function Jumped(p: Pose, t: Tuning): (r: Pose)
    ensures r.body == p.body.(vy := -t.jumpSpeed)
    ensures r.state == Flags(p.state.left, p.state.right, false, p.state.walking, true)
  {
    Pose(p.body.(vy := -t.jumpSpeed), p.state.(stopped := false, jumping := false).(jumping := true))
  }

  /** Left accelerates leftward between WalkSpeed and RunSpeed; it leaves
      exactly LEFT | WALKING, so a walk cancels a jump. */
  function MovedLeft(p: Pose, ms: real, t: Tuning): (r: Pose)
    ensures t.walkSpeed <= t.runSpeed ==> -t.runSpeed <= r.body.vx <= -t.walkSpeed
    ensures var v := p.body.vx - t.acceleration * ms;
            -t.runSpeed <= v <= -t.walkSpeed ==> r.body.vx == v
    ensures var v := p.body.vx - t.acceleration * ms;
            t.walkSpeed <= t.runSpeed ==>
              (v > -t.walkSpeed ==> r.body.vx == -t.walkSpeed) && (v < -t.runSpeed ==> r.body.vx == -t.runSpeed)
    ensures r.body == p.body.(vx := r.body.vx)
    ensures r.state == Flags(true, false, false, true, false)
  {
    var v := p.body.vx - t.acceleration * ms;
    Pose(p.body.(vx := Max(-t.runSpeed, Min(-t.walkSpeed, v))),
         p.state.(right := false, stopped := false, jumping := false).(left := true, walking := true))
  }

  /** Right mirrors Left: exactly RIGHT | WALKING. */
  function MovedRight(p: Pose, ms: real, t: Tuning): (r: Pose)
    ensures t.walkSpeed <= t.runSpeed ==> t.walkSpeed <= r.body.vx <= t.runSpeed
    ensures var v := p.body.vx + t.acceleration * ms;
            t.walkSpeed <= v <= t.runSpeed ==> r.body.vx == v
    ensures var v := p.body.vx + t.acceleration * ms;
            t.walkSpeed <= t.runSpeed ==>
              (v < t.walkSpeed ==> r.body.vx == t.walkSpeed) && (v > t.runSpeed ==> r.body.vx == t.runSpeed)
    ensures r.body == p.body.(vx := r.body.vx)
    ensures r.state == Flags(false, true, false, true, false)
  {
    var v := p.body.vx + t.acceleration * ms;
    Pose(p.body.(vx := Min(t.runSpeed, Max(t.walkSpeed, v))),
         p.state.(left := false, stopped := false, jumping := false).(right := true, walking := true))
  }

  /** Slow brakes by Deceleration*ms; within one step of zero it stops,
      clearing both WALKING and JUMPING. */
  function Slowed(p: Pose, ms: real, t: Tuning): (r: Pose)
    ensures r.body == p.body.(vx := r.body.vx)
    ensures Abs(p.body.vx) <= t.deceleration * ms ==>
              r.body.vx == 0.0 && r.state == Flags(p.state.left, p.state.right, true, false, false)
    ensures Abs(p.body.vx) > t.deceleration * ms ==>
              && Abs(r.body.vx) == Abs(p.body.vx) - t.deceleration * ms
              && (p.body.vx > 0.0 ==> r.body.vx > 0.0) && (p.body.vx < 0.0 ==> r.body.vx < 0.0)
              && r.state == p.state
  {
    if Abs(p.body.vx) <= t.deceleration * ms then
      Pose(p.body.(vx := 0.0), p.state.(walking := false, jumping := false).(stopped := true))
    else if p.body.vx > 0.0 then
      Pose(p.body.(vx := p.body.vx - t.deceleration * ms), p.state)
    else
      Pose(p.body.(vx := p.body.vx + t.deceleration * ms), p.state)
  }

  /** Rebound away from a creature at (cx, cy), strictly compared; the state
      bits are not touched. */
  function Rebounded(p: Pose, cx: real, cy: real, t: Tuning): (r: Pose)
    ensures cx > p.body.x ==> r.body.vx == -t.runSpeed
    ensures cx <= p.body.x ==> r.body.vx == t.runSpeed
    ensures cy > p.body.y ==> r.body.vy == -t.jumpSpeed
    ensures cy <= p.body.y ==> r.body.vy == t.jumpSpeed
    ensures r.body == p.body.(vx := r.body.vx, vy := r.body.vy) && r.state == p.state
  {
    Pose(p.body.(vx := if cx > p.body.x then -t.runSpeed else t.runSpeed,
                 vy := if cy > p.body.y then -t.jumpSpeed else t.jumpSpeed),
         p.state)
  }

  /** Bounce off a creature at height cy: vertical launch away from it and
      no horizontal speed; position and state bits stay. */
  function Bounced(p: Pose, cy: real, t: Tuning): (r: Pose)
    ensures cy > p.body.y ==> r.body.vy == -t.jumpSpeed
    ensures cy <= p.body.y ==> r.body.vy == t.jumpSpeed
    ensures r.body == p.body.(vx := 0.0, vy := r.body.vy) && r.state == p.state
  {
    Pose(p.body.(vy := if cy > p.body.y then -t.jumpSpeed else t.jumpSpeed, vx := 0.0), p.state)
  }

  /** The earlier CheckKeys, with the same dispatch as the later one. */
  function AfterKeys(p: Pose, keys: Keys, ms: real, t: Tuning): (r: Pose)
    ensures var j := if keys.up && !keys.down then Jumped(p, t) else p;
            && (keys.left && !keys.right ==> r == MovedLeft(j, ms, t))
            && (!keys.left && keys.right ==> r == MovedRight(j, ms, t))
            && (keys.left == keys.right ==> r == Slowed(j, ms, t))
  {
    var j := if keys.up && !keys.down then Jumped(p, t) else p;
    if keys.left && !keys.right then MovedLeft(j, ms, t)
    else if !keys.left && keys.right then MovedRight(j, ms, t)
    else Slowed(j, ms, t)
  }

  /** Exactly one facing bit survives every player transition. */
  lemma FacingStaysExclusive(p: Pose, t: Tuning, ms: real, cx: real, cy: real, keys: Keys)
    requires p.state.OneFacing()
    ensures Jumped(p, t).state.OneFacing() && MovedLeft(p, ms, t).state.OneFacing()
    ensures MovedRight(p, ms, t).state.OneFacing() && Slowed(p, ms, t).state.OneFacing()
    ensures Rebounded(p, cx, cy, t).state.OneFacing() && Bounced(p, cy, t).state.OneFacing()
    ensures AfterKeys(p, keys, ms, t).state.OneFacing()
  {
  }

  /** Jumping while walking keeps WALKING, so the motion group is not
      exclusive here either; holding a direction key clears the jump. */
  lemma WalkingJump(p: Pose, ms: real)
    requires p.state == StoppedRight
    ensures var w := MovedRight(p, ms, PlayerTuning);
            var j := Jumped(w, PlayerTuning).state;
            j.jumping && j.walking && !MovedRight(Jumped(w, PlayerTuning), ms, PlayerTuning).state.jumping
  {
  }

  class Player {
    const sprite: Sprite
    var state: Flags
    var lastState: Flags
    const tuning: Tuning
    var nextFrame: int
    var frameCounter: int

    ghost predicate Valid()
      reads this
    {
      state.OneFacing() && 0 <= frameCounter < 1000
    }

    function Snapshot(): Pose
      reads this, sprite
    {
      Pose(sprite.Snapshot(), state)
    }

    function Clock(): Ticker
      reads this, sprite
    {
      Ticker(sprite.frame, nextFrame, frameCounter, lastState)
    }

    /** NewPlayer at a START tile whose top is at y, facing right. */
    constructor (x: real, y: real, w: real, h: real, now: int)
      ensures Valid() && fresh(sprite)
      ensures sprite.Snapshot() == Body(x, y - h, w, h, 0.0, 0.0, true) && sprite.frame == 0
      ensures state == StoppedRight && lastState == StoppedRight && tuning == PlayerTuning
      ensures nextFrame == now && frameCounter == 0
    {
      sprite := new Sprite(x, y - h, w, h);
      state, lastState := StoppedRight, StoppedRight;
      tuning := PlayerTuning;
      nextFrame, frameCounter := now, 0;
    }

    method Jump()
      requires Valid()
      modifies this, sprite
      ensures Valid() && Snapshot() == Jumped(old(Snapshot()), tuning) && Clock() == old(Clock())
    {
      sprite.vy := -tuning.jumpSpeed;
      state := state.(stopped := false, jumping := false);
      state := state.(jumping := true);
    }

    method Left(ms: real)
      requires Valid()
      modifies this, sprite
      ensures Valid() && Snapshot() == MovedLeft(old(Snapshot()), ms, tuning) && Clock() == old(Clock())
    {
      var v := sprite.vx - tuning.acceleration * ms;
      sprite.vx := Max(-tuning.runSpeed, Min(-tuning.walkSpeed, v));
      state := state.(right := false, stopped := false, jumping := false);
      state := state.(left := true, walking := true);
    }

    method Right(ms: real)
      requires Valid()
      modifies this, sprite
      ensures Valid() && Snapshot() == MovedRight(old(Snapshot()), ms, tuning) && Clock() == old(Clock())
    {
      var v := sprite.vx + tuning.acceleration * ms;
      sprite.vx := Min(tuning.runSpeed, Max(tuning.walkSpeed, v));
      state := state.(left := false, stopped := false, jumping := false);
      state := state.(right := true, walking := true);
    }

    method Slow(ms: real)
      requires Valid()
      modifies this, sprite
      ensures Valid() && Snapshot() == Slowed(old(Snapshot()), ms, tuning) && Clock() == old(Clock())
    {
      if Abs(sprite.vx) <= tuning.deceleration * ms {
        sprite.vx := 0.0;
        state := state.(walking := false, jumping := false);
        state := state.(stopped := true);
      } else {
        if sprite.vx > 0.0 {
          sprite.vx := sprite.vx - tuning.deceleration * ms;
        } else {
          sprite.vx := sprite.vx + tuning.deceleration * ms;
        }
      }
    }

    /** Rebound(c), given the creature's position. */
    method Rebound(cx: real, cy: real)
      requires Valid()
      modifies sprite
      ensures Valid() && Snapshot() == Rebounded(old(Snapshot()), cx, cy, tuning) && Clock() == old(Clock())
    {
      if cx > sprite.x {
        sprite.vx := -tuning.runSpeed;
      } else {
        sprite.vx := tuning.runSpeed;
      }
      if cy > sprite.y {
        sprite.vy := -tuning.jumpSpeed;
      } else {
        sprite.vy := tuning.jumpSpeed;
      }
    }

    /** Bounce(c), given the creature's height. */
    method Bounce(cy: real)
      requires Valid()
      modifies sprite
      ensures Valid() && Snapshot() == Bounced(old(Snapshot()), cy, tuning) && Clock() == old(Clock())
    {
      if cy > sprite.y {
        sprite.vy := -tuning.jumpSpeed;
      } else {
        sprite.vy := tuning.jumpSpeed;
      }
      sprite.vx := 0.0;
    }

    /** The earlier Update only animates. */
    method Update(now: int)
      requires Valid()
      modifies this, sprite
      ensures Valid() && state == old(state)
      ensures Clock() == Advance(old(Clock()), state, PlayerAnimations, now)
      ensures sprite.Snapshot() == old(sprite.Snapshot())
    {
      PlayerAnimationsPlayable();
      if now > nextFrame || lastState != state {
        if state in PlayerAnimations {
          var anim := PlayerAnimations[state];
          var i := frameCounter % |anim.frames|;
          sprite.SetFrame(anim.frames[i]);
          nextFrame := now + anim.duration;
        }
        frameCounter := (frameCounter + 1) % 1000;
        lastState := state;
      }
    }
  }

  // ---------------------------------------------------------------------
  // Creature: a sprite, its patrol speed and its worth

  class Creature {
    const sprite: Sprite
    const speed: real
    const points: int

    /** SpawnCreature's BADGUY: a 32 by 64 sprite standing on the tile top
        at y, showing frame 1 and walking left at its speed 0.1. */
    constructor Spawned(x: real, y: real)
      ensures fresh(sprite) && speed == 0.1 && points == 100
      ensures sprite.Snapshot() == Body(x, y - 64.0, 32.0, 64.0, -0.1, 0.0, true) && sprite.frame == 1
    {
      var s := new Sprite(x, y - 64.0, 32.0, 64.0);
      s.frame := 1;
      s.vx := -0.1;
      sprite := s;
      speed := 0.1;
      points := 100;
    }
  }
}
