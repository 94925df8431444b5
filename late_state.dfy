/** src/main.go, the later revision: the per-frame game state. UpdateSprite,
    the camera, the health, lives and score bookkeeping, tile dispatch and
    the frame update are methods on State; each is tied to functions on
    values, and the properties are proved about those. */
module LateState {
  import opened Common
  import opened Collision
  import opened Animation
  import opened LateActors

  // ---------------------------------------------------------------------
  // UpdateSprite on values

  /** Gravity per millisecond of frame time. */
  const Gravity: real := 0.005

  /** How far the world-edge clamp pushes a sprite back inside. */
  const EdgeNudge: real := 1.0

  /** A sprite after UpdateSprite: its new value and the sides it hit. */
  datatype Moved = Moved(body: Body, result: Sides)

  /** Gravity, then the proposed displacement for this frame: gravity
      grows with the frame time, and each displacement is its speed times
      ms. */
  function Proposed(b: Body, ms: real): (r: Step)
    ensures r.x == b.x && r.y == b.y && r.vx == b.vx && r.result == NoHit
    ensures r.vy == b.vy + Gravity * ms
    ensures r.dX == r.vx * ms && r.dY == r.vy * ms
  {
    var vy := b.vy + Gravity * ms;
    Step(b.x, b.y, b.vx, vy, b.vx * ms, vy * ms, NoHit)
  }

  /** The edge clamp, then the boundary loop when the sprite collides. */
  function Resolved(b: Body, ms: real, envW: real, blocks: seq<Rect>): Step {
    var s := EdgeClamp(Proposed(b, ms), b.Bounds(), envW, EdgeNudge);
    if b.collide then Resolve(s, b.w, b.h, blocks) else s
  }

  /** UpdateSprite: whatever displacement survives is applied at the end. */
  function SpriteStep(b: Body, ms: real, envW: real, blocks: seq<Rect>): (r: Moved)
    ensures r.body.w == b.w && r.body.h == b.h && r.body.collide == b.collide
  {
    var s := Resolved(b, ms, envW, blocks);
    Moved(Body(s.x + s.dX, s.y + s.dY, b.w, b.h, s.vx, s.vy, b.collide), s.result)
  }

  /** Every reported side stopped the motion across it: a left or right hit
      leaves no horizontal velocity, a top or bottom hit no vertical one. */
  lemma HitsStopMotion(b: Body, ms: real, envW: real, blocks: seq<Rect>)
    ensures var r := SpriteStep(b, ms, envW, blocks);
            && ((r.result.left || r.result.right) ==> r.body.vx == 0.0)
            && ((r.result.top || r.result.bottom) ==> r.body.vy == 0.0)
  {
    var s := EdgeClamp(Proposed(b, ms), b.Bounds(), envW, EdgeNudge);
    if b.collide {
      var r := Resolve(s, b.w, b.h, blocks);
      if !SameVertical(s.result, r.result) {
        ResolveVerticalHitStops(s, b.w, b.h, blocks);
      }
      if s.result.left || s.result.right {
        ResolveKeepsStoppedX(s, b.w, b.h, blocks);
      } else if !SameHorizontal(s.result, r.result) {
        ResolveHorizontalHitStops(s, b.w, b.h, blocks);
      }
    }
  }

  /** With Collide off, no boundary is consulted: the outcome is the same as
      in an empty level, and only the world edges can report a side. */
  lemma NoCollideIgnoresBoundaries(b: Body, ms: real, envW: real, blocks: seq<Rect>)
    requires !b.collide
    ensures SpriteStep(b, ms, envW, blocks) == SpriteStep(b, ms, envW, [])
    ensures var r := SpriteStep(b, ms, envW, blocks);
            && !r.result.top && !r.result.bottom
            && r.body.vy == b.vy + Gravity * ms
            && r.body.y == b.y + (b.vy + Gravity * ms) * ms
  {
  }

  /** A sprite inside the level that moves away from both edges reports no
      edge hit and keeps its full horizontal displacement when no boundary
      is in the way. */
  lemma FreeFlight(b: Body, ms: real, envW: real)
    requires 0.0 <= b.x + b.vx * ms && b.x + b.w + b.vx * ms <= envW
    ensures var r := SpriteStep(b, ms, envW, []);
            && r.result == NoHit
            && r.body.x == b.x + b.vx * ms && r.body.vx == b.vx
            && r.body.vy == b.vy + Gravity * ms && r.body.y == b.y + r.body.vy * ms
  {
  }

  /** Left edge: a sprite at x = 0 moving left is stopped, reported as a
      left hit and pushed one pixel back inside. */
  lemma LeftEdgeStops(b: Body, ms: real, envW: real, blocks: seq<Rect>)
    requires b.x == 0.0 && b.vx < 0.0 && ms > 0.0 && b.w + 1.0 <= envW
    ensures var r := SpriteStep(b, ms, envW, blocks);
            r.result.left && !r.result.right && r.body.vx == 0.0 && r.body.x == 1.0
  {
    assert b.vx * ms < 0.0;
    var s := EdgeClamp(Proposed(b, ms), b.Bounds(), envW, EdgeNudge);
    if b.collide {
      ResolveKeepsStoppedX(s, b.w, b.h, blocks);
    }
  }

  /** Right edge, the mirror image. */
  lemma RightEdgeStops(b: Body, ms: real, envW: real, blocks: seq<Rect>)
    requires b.x + b.w == envW && b.vx > 0.0 && ms > 0.0 && b.x >= 0.0
    ensures var r := SpriteStep(b, ms, envW, blocks);
            r.result.right && !r.result.left && r.body.vx == 0.0 && r.body.x == b.x - 1.0
  {
    assert b.vx * ms > 0.0;
    var s := EdgeClamp(Proposed(b, ms), b.Bounds(), envW, EdgeNudge);
    if b.collide {
      ResolveKeepsStoppedX(s, b.w, b.h, blocks);
    }
  }

  /** A standing sprite resting on a floor block stays where it is: gravity
      pulls it into the block, the vertical snap puts it back on top, and
      the frame reports a bottom hit with no vertical speed left. */
  lemma RestsOnFloor(b: Body, ms: real, envW: real, block: Rect)
    requires b.collide && b.vx == 0.0 && b.vy == 0.0 && 0.0 < ms <= 50.0
    requires 0.0 <= b.x && b.x + b.w <= envW && b.w > 0.0 && b.h > 0.0
    requires block.y == b.y + b.h && block.h == BlockSize
    requires block.x < b.x + b.w && b.x < block.x + block.w
    ensures var r := SpriteStep(b, ms, envW, [block]);
            && r.body.x == b.x && r.body.y == b.y && r.body.vx == 0.0 && r.body.vy == 0.0
            && r.result == NoHit.(bottom := true)
  {
    var s := EdgeClamp(Proposed(b, ms), b.Bounds(), envW, EdgeNudge);
    assert s == Proposed(b, ms);
    var g := Gravity * ms;
    assert 0.0 < g <= 0.25;
    assert s.dY == g * ms && s.dX == 0.0;
    assert 0.0 < g * ms <= 12.5 by {
      assert g * ms <= 0.25 * ms;
    }
    assert !TestMove(Box(s, b.w, b.h), 0.0, s.dY, block);
    assert Resolve(s, b.w, b.h, [block]) == BlockStep(s, b.w, b.h, block);
  }

  // ---------------------------------------------------------------------
  // A creature's frame on values

  /** A creature's part of a frame: off screen nothing happens; on screen its
      sprite moves as UpdateSprite moves any sprite, then Creature.Update
      animates it and applies the patrol rule to the sides the move hit. */
  function CreatureFrame(v: CreatureView, speed: real, ms: real, now: int, envW: real, blocks: seq<Rect>,
                         onScreen: bool): (r: CreatureView)
    requires speed >= 0.0 && v.clock.frameCounter >= 0
    ensures !onScreen ==> r == v
    ensures onScreen ==>
              var m := SpriteStep(v.pose.body, ms, envW, blocks);
              && r.pose.body == m.body.(vx := r.pose.body.vx)
              && r.clock == Advance(v.clock, v.pose.state, CreatureAnimations, now)
              && (m.result.right ==> r.pose.body.vx == -speed && r.pose.state == v.pose.state.(right := false, left := true))
              && (!m.result.right && m.result.left ==>
                    r.pose.body.vx == speed && r.pose.state == v.pose.state.(left := false, right := true))
              && (!m.result.right && !m.result.left ==>
                    r.pose.state == v.pose.state && Abs(r.pose.body.vx) - speed == (Abs(m.body.vx) - speed) * 0.9)
    ensures v.pose.state == FacingLeftOnly || v.pose.state == FacingRightOnly ==>
              r.pose.state == FacingLeftOnly || r.pose.state == FacingRightOnly
  {
    if !onScreen then v
    else
      var m := SpriteStep(v.pose.body, ms, envW, blocks);
      var p := Patrolled(Patrol(m.body.vx, v.pose.state), speed, m.result);
      CreatureView(Pose(m.body.(vx := p.vx), p.state), Advance(v.clock, v.pose.state, CreatureAnimations, now))
  }

  /** The view of a creature that keeps Creature.Valid: facing one way
      only, with its frame counter below 1000. */
  predicate Settled(v: CreatureView) {
    (v.pose.state == FacingLeftOnly || v.pose.state == FacingRightOnly) && 0 <= v.clock.frameCounter < 1000
  }

  /** Creature c has taken its turn of the frame, starting from `before`. */
  ghost predicate TookTurn(c: Creature, before: CreatureView, ms: real, now: int, envW: real, blocks: seq<Rect>,
                           visible: set<Creature>)
    reads c, c.sprite
  {
    && c.speed >= 0.0 && before.clock.frameCounter >= 0
    && c.View() == CreatureFrame(before, c.speed, ms, now, envW, blocks, c in visible)
  }

  /** The views of the creatures of cs, in order. */
  ghost function Views(cs: seq<Creature>): (r: seq<CreatureView>)
    reads cs, set c | c in cs :: c.sprite
    ensures |r| == |cs|
    ensures forall j | 0 <= j < |cs| :: r[j] == cs[j].View()
  {
    if cs == [] then [] else Views(cs[..|cs| - 1]) + [cs[|cs| - 1].View()]
  }

  /** The creature loop over `cs`, whose views were `v0` when it started,
      after i turns: the first i creatures have taken their turns, the rest
      are as they were. */
  ghost predicate Progress(cs: seq<Creature>, v0: seq<CreatureView>, i: nat, ms: real, now: int, envW: real,
                           blocks: seq<Rect>, visible: set<Creature>)
    reads cs, set c | c in cs :: c.sprite
  {
    && i <= |cs| == |v0|
    && (forall j {:trigger TookTurn(cs[j], v0[j], ms, now, envW, blocks, visible)} | 0 <= j < i ::
          TookTurn(cs[j], v0[j], ms, now, envW, blocks, visible))
    && (forall j {:trigger cs[j].View()} | i <= j < |cs| :: cs[j].View() == v0[j])
  }

  /** A creature walking right into the right end of the level is pushed
      back a pixel, turns round and walks left at its own speed. */
  lemma CreatureTurnsAtRightEdge(v: CreatureView, speed: real, ms: real, now: int, envW: real, blocks: seq<Rect>)
    requires speed >= 0.0 && v.clock.frameCounter >= 0 && v.pose.state == FacingRightOnly
    requires v.pose.body.x + v.pose.body.w == envW && v.pose.body.vx > 0.0 && ms > 0.0 && v.pose.body.x >= 0.0
    ensures var r := CreatureFrame(v, speed, ms, now, envW, blocks, true);
            r.pose.state == FacingLeftOnly && r.pose.body.vx == -speed && r.pose.body.x == v.pose.body.x - 1.0
  {
    RightEdgeStops(v.pose.body, ms, envW, blocks);
  }

  /** The mirror image at the left end. */
  lemma CreatureTurnsAtLeftEdge(v: CreatureView, speed: real, ms: real, now: int, envW: real, blocks: seq<Rect>)
    requires speed >= 0.0 && v.clock.frameCounter >= 0 && v.pose.state == FacingLeftOnly
    requires v.pose.body.x == 0.0 && v.pose.body.vx < 0.0 && ms > 0.0 && v.pose.body.w + 1.0 <= envW
    ensures var r := CreatureFrame(v, speed, ms, now, envW, blocks, true);
            r.pose.state == FacingRightOnly && r.pose.body.vx == speed && r.pose.body.x == 1.0
  {
    LeftEdgeStops(v.pose.body, ms, envW, blocks);
  }

  // ---------------------------------------------------------------------
  // The camera on values

  /** Where UpdateViewport wants the level: the player centred, the camera
      kept inside the scroll limits. The engine's `env.RelativeBounds`
      of the player is taken to start at (-x, -y). */
  function Target(p: Body, sc: Screen): (t: Camera)
    ensures sc.Valid() ==> InView(t, sc)
    // x centres the player's left edge horizontally
    ensures var cx := -p.x + sc.viewW / 2.0;
            && (sc.xmin <= cx <= sc.xmax ==> t.x == cx)
            && (sc.xmin <= sc.xmax && cx < sc.xmin ==> t.x == sc.xmin)
            && (cx > sc.xmax ==> t.x == sc.xmax)
    // y centres the player's middle vertically
    ensures var cy := -p.y + sc.viewH / 2.0 - p.h / 2.0;
            && (sc.ymin <= cy <= sc.ymax ==> t.y == cy)
            && (sc.ymin <= sc.ymax && cy < sc.ymin ==> t.y == sc.ymin)
            && (cy > sc.ymax ==> t.y == sc.ymax)
  {
    Camera(Clamp(-p.x + sc.viewW / 2.0, sc.xmin, sc.xmax),
           Clamp(-p.y + sc.viewH / 2.0 - p.h / 2.0, sc.ymin, sc.ymax))
  }

  /** UpdateViewport with the Round the source writes. */
  function CameraWith(cam: Camera, p: Body, sc: Screen, ms: real, asWritten: bool): (r: Camera)
    requires p.collide || ms != 0.0
    ensures var t := Target(p, sc);
            p.collide && (ms == 0.0 || (t.y - cam.y < 1.0 && t.y - cam.y > -1.0)) ==> r == t
    ensures var t := Target(p, sc);
            !(p.collide && (ms == 0.0 || (t.y - cam.y < 1.0 && t.y - cam.y > -1.0))) ==>
              IsIntegral(r.x) && IsIntegral(r.y)
  {
    var t := Target(p, sc);
    var dx := t.x - cam.x;
    var dy := t.y - cam.y;
    if p.collide && (ms == 0.0 || (dy < 1.0 && dy > -1.0)) then t
    else
      var r := 0.1 * ms;
      // while colliding the vertical step is a thirtieth of the gap, at least one pixel
      var stepY := if !p.collide then dy / r else ClimbStep(dy);
      var nx := cam.x + dx / r;
      var ny := cam.y + stepY;
      if asWritten then Camera(RoundAsWritten(nx), RoundAsWritten(ny)) else Camera(Round(nx), Round(ny))
  }

  /** The camera step with the corrected Round. */
  function NextCamera(cam: Camera, p: Body, sc: Screen, ms: real): (r: Camera)
    requires p.collide || ms != 0.0
    ensures p.collide && ms == 0.0 ==> r == Target(p, sc)
  {
    CameraWith(cam, p, sc, ms, false)
  }

  /** A snap (ms = 0) always lands inside the scroll limits. */
  lemma SnapInView(cam: Camera, p: Body, sc: Screen)
    requires p.collide && sc.Valid()
    ensures InView(NextCamera(cam, p, sc, 0.0), sc)
  {
  }

  /** The vertical step while colliding: a thirtieth of the gap but at
      least one pixel, which never passes a target at least a pixel away. */
  function ClimbStep(dy: real): (step: real)
    ensures dy >= 1.0 ==> 1.0 <= step <= dy
    ensures dy <= -1.0 ==> dy <= step <= -1.0
  {
    if dy > 0.0 then Max(1.0, dy / 30.0) else Min(-1.0, dy / 30.0)
  }

  /** With frames of at least 10 ms the damped camera never overshoots its
      target, so a camera inside the scroll limits stays inside them
      (the limits are whole pixels, as the level and window sizes are). */
  lemma DampedStaysInView(cam: Camera, p: Body, sc: Screen, ms: real)
    requires p.collide && ms >= 10.0 && sc.Valid() && InView(cam, sc)
    requires IsIntegral(sc.xmin) && IsIntegral(sc.xmax) && IsIntegral(sc.ymin) && IsIntegral(sc.ymax)
    ensures InView(NextCamera(cam, p, sc, ms), sc)
  {
    var t := Target(p, sc);
    var dy := t.y - cam.y;
    if !(dy < 1.0 && dy > -1.0) {
      var r := 0.1 * ms;
      var nx := cam.x + (t.x - cam.x) / r;
      var ny := cam.y + ClimbStep(dy);
      assert NextCamera(cam, p, sc, ms) == Camera(Round(nx), Round(ny));
      SharedStepBetween(cam.x, t.x, r);
      RoundStaysInBounds(nx, sc.xmin, sc.xmax);
      RoundStaysInBounds(ny, sc.ymin, sc.ymax);
    }
  }

  /** As written, the final Round of UpdateViewport takes a camera resting
      on a whole left limit at or below zero one pixel past it: here the
      target is the limit itself (dx = 0), and the camera leaves the scroll
      range, where the corrected Round keeps it on the limit. */
  lemma CameraLeavesViewAsWritten()
    ensures var sc := Screen(-360.0, 0.0, -1000.0, 0.0, 640.0, 480.0);
            var p := Body(680.0, 0.0, 32.0, 64.0, 0.0, 0.0, true);
            var cam := Camera(-360.0, -100.0);
            && sc.Valid() && InView(cam, sc)
            && CameraWith(cam, p, sc, 16.0, true).x == -361.0
            && !InView(CameraWith(cam, p, sc, 16.0, true), sc)
            && NextCamera(cam, p, sc, 16.0).x == -360.0
  {
    var sc := Screen(-360.0, 0.0, -1000.0, 0.0, 640.0, 480.0);
    var p := Body(680.0, 0.0, 32.0, 64.0, 0.0, 0.0, true);
    var cam := Camera(-360.0, -100.0);
    var t := Target(p, sc);
    assert t == Camera(-360.0, 0.0);
    var r := 0.1 * 16.0;
    assert (t.x - cam.x) / r == 0.0;
    RoundAsWrittenShiftsNonPositive(-360);
    IntIsIntegral(-360);
  }

  /** Below 10 ms the horizontal step overshoots: at 5 ms it moves twice the
      distance to the target. */
  lemma ShortFrameOvershoots()
    ensures var sc := Screen(-1000.0, 0.0, -1000.0, 0.0, 640.0, 480.0);
            var p := Body(420.0, 300.0, 32.0, 64.0, 0.0, 0.0, true);
            NextCamera(Camera(0.0, 0.0), p, sc, 5.0) == Camera(-200.0, -3.0)
  {
    var sc := Screen(-1000.0, 0.0, -1000.0, 0.0, 640.0, 480.0);
    var p := Body(420.0, 300.0, 32.0, 64.0, 0.0, 0.0, true);
    assert Target(p, sc) == Camera(-100.0, -92.0);
  }

  // ---------------------------------------------------------------------
  // Health, lives and score on values

  /** The health bar with the player's invincibility window. */
  datatype Guard = Guard(bar: Counter, invincible: bool, vincibleat: int)

  /** ChangeHealth: damage is ignored while invincible; any other change
      lands (clamped into the bar) and opens a new window. */
  function Hurt(g: Guard, change: int, now: int): (r: Guard)
    ensures change < 0 && g.invincible ==> r == g
    ensures !(change < 0 && g.invincible) ==> r.invincible && r.vincibleat == now + InvincibleFor
    ensures g.bar.Valid() ==> r.bar.Valid() && r.bar.max == g.bar.max
    ensures !(change < 0 && g.invincible) && g.bar.Valid() ==>
              && (0 <= g.bar.avail + change <= g.bar.max ==> r.bar.avail == g.bar.avail + change)
              && (g.bar.avail + change < 0 ==> r.bar.avail == 0)
              && (g.bar.avail + change > g.bar.max ==> r.bar.avail == g.bar.max)
  {
    if change < 0 && g.invincible then g
    else Guard(AfterSetAvailable(g.bar, g.bar.avail + change), true, now + InvincibleFor)
  }

  /** Player.Update's expiry of the window. */
  function Expire(g: Guard, now: int): (r: Guard)
    ensures r.bar == g.bar && r.vincibleat == g.vincibleat
    ensures r.invincible <==> g.invincible && now <= g.vincibleat
  {
    if g.invincible && now > g.vincibleat then g.(invincible := false) else g
  }

  /** Two hits within 200 ms cost one point of health. */
  lemma OneHitPerWindow(g: Guard, t1: int, t2: int)
    requires g.bar.Valid() && g.bar.avail > 0 && !g.invincible && t1 <= t2 <= t1 + InvincibleFor
    ensures var g1 := Hurt(g, -1, t1);
            && g1.bar.avail == g.bar.avail - 1
            && Hurt(Expire(g1, t2), -1, t2).bar == g1.bar
  {
  }

  /** Once the window has passed, the next hit lands again. */
  lemma HitLandsAfterWindow(g: Guard, t1: int, t2: int)
    requires g.bar.Valid() && g.bar.avail > 1 && !g.invincible && t2 > t1 + InvincibleFor
    ensures var g1 := Hurt(g, -1, t1);
            Hurt(Expire(g1, t2), -1, t2).bar.avail == g.bar.avail - 2
  {
  }

  /** Score, extra-life threshold, the lives bar and the running flag. */
  datatype Tally = Tally(score: int, nextlife: int, lives: Counter, running: bool)

  /** ChangeLives: the bar clamps, and the game stops when no life is left. */
  function LivesChanged(t: Tally, i: int): (r: Tally)
    ensures r.score == t.score && r.nextlife == t.nextlife
    ensures r.lives == AfterSetAvailable(t.lives, t.lives.avail + i)
    ensures r.running <==> t.running && r.lives.avail != 0
  {
    var l := AfterSetAvailable(t.lives, t.lives.avail + i);
    t.(lives := l, running := t.running && l.avail != 0)
  }

  /** ChangeMaxLives. */
  function MaxLivesChanged(t: Tally, i: int): (r: Tally)
    ensures r.score == t.score && r.nextlife == t.nextlife && r.running == t.running
    ensures r.lives.max >= 0 && (t.lives.max + i >= 0 ==> r.lives.max == t.lives.max + i)
    ensures t.lives.Valid() ==> r.lives.Valid() && (t.lives.avail <= r.lives.max ==> r.lives.avail == t.lives.avail)
  {
    t.(lives := AfterSetMax(t.lives, t.lives.max + i))
  }

  /** SetScore: reaching the threshold grants one extra life slot and one
      life and doubles the threshold, once per call however far the score
      passed it. */
  function Scored(t: Tally, score: int): (r: Tally)
    ensures r.score == score
    ensures score < t.nextlife ==> r == t.(score := score)
    ensures score >= t.nextlife && t.lives.Valid() ==>
              && r.nextlife == 2 * t.nextlife
              && r.lives == Counter(t.lives.avail + 1, t.lives.max + 1)
              && r.running == t.running
    ensures t.lives.Valid() ==> r.lives.Valid()
  {
    var t1 := t.(score := score);
    if score >= t.nextlife then
      var t2 := LivesChanged(MaxLivesChanged(t1, 1), 1);
      t2.(nextlife := t2.nextlife * 2)
    else t1
  }

  /** From the initial threshold of 400: 100 points change nothing, 1000
      points grant a single life and move the threshold to 800 only. */
  lemma ThresholdExample(l: Counter)
    requires l.Valid()
    ensures Scored(Tally(0, 400, l, true), 100) == Tally(100, 400, l, true)
    ensures Scored(Tally(0, 400, l, true), 1000) == Tally(1000, 800, Counter(l.avail + 1, l.max + 1), true)
  {
  }

  /** The later IsKillShot: any contact while falling faster than 0.1 is a
      kill, wherever the creature is. */
  function IsKillShot(p: Body, c: Body): (r: bool)
    ensures r ==> p.vy > 0.0
  {
    p.vy > 0.1
  }

  /** Unlike the earlier revision, where the player's feet land on the
      creature does not matter: only the player's fall does. */
  lemma KillShotIgnoresCreature(p: Body, c: Body, d: Body)
    ensures IsKillShot(p, c) == IsKillShot(p, d)
  {
  }

  /** Total points of the creatures killed, in order. */
  function Points(killed: seq<Creature>): int {
    if killed == [] then 0 else Points(killed[..|killed| - 1]) + killed[|killed| - 1].points
  }

  lemma PointsStep(killed: seq<Creature>, c: Creature)
    ensures Points(killed + [c]) == Points(killed) + c.points
  {
    assert (killed + [c])[..|killed|] == killed;
  }

  // ---------------------------------------------------------------------
  // The game state

  /** No two creatures of the list share a sprite, and none shares the
      player's: NewPlayer and NewMushroom each make a sprite of their own. */
  ghost predicate Apart(cs: seq<Creature>, p: Player?) {
    && (forall i, j | 0 <= i < j < |cs| :: cs[i].sprite != cs[j].sprite)
    && (p != null ==> forall i | 0 <= i < |cs| :: cs[i].sprite != p.sprite)
  }

  /** KillCreature keeps the sprites apart. */
  lemma ApartRemoveFirst(cs: seq<Creature>, c: Creature, p: Player?)
    requires Apart(cs, p)
    ensures Apart(RemoveFirst(cs, c), p)
  {
    if c in cs {
      var r := RemoveFirst(cs, c);
      forall i, j | 0 <= i < j < |r| ensures r[i].sprite != r[j].sprite {
        var i' := RemoveFirstAt(cs, c, i);
        var j' := RemoveFirstAt(cs, c, j);
      }
      if p != null {
        forall i | 0 <= i < |r| ensures r[i].sprite != p.sprite {
          var i' := RemoveFirstAt(cs, c, i);
        }
      }
    }
  }

  class State {
    var player: Player?
    const livesbar: LivesBar
    const healthbar: LivesBar
    var running: bool
    var victory: bool
    var score: int
    var nextlife: int
    var boundaries: seq<Rect>
    var creatures: seq<Creature>
    /** The level's size in pixels. */
    const envW: real
    const envH: real
    const screen: Screen
    /** The level's offset in the window. */
    var env: Camera
    /** Sprite sizes the textures would give. */
    const playerW: real
    const playerH: real
    const creatureW: real
    const creatureH: real

    ghost predicate Valid()
      reads this, player, livesbar, healthbar, creatures
    {
      && livesbar != healthbar
      && livesbar.Valid() && healthbar.Valid()
      && (player != null ==> player.Valid())
      && (forall c | c in creatures :: c.Valid())
      && Apart(creatures, player)
    }

    /** A state with a player, which every frame operation needs. */
    ghost predicate Ready()
      reads this, player, livesbar, healthbar, creatures
    {
      player != null && Valid()
    }

    function Ledger(): Tally
      reads this, livesbar
    {
      Tally(score, nextlife, livesbar.Numbers(), running)
    }

    function Health(): Guard
      requires player != null
      reads this, player, healthbar
    {
      Guard(healthbar.Numbers(), player.invincible, player.vincibleat)
    }

    /** The state before the level loads: empty bars, no player yet, the
        first extra life at 400 points, and the scroll limits Init derives
        from the level and window sizes. */
    constructor (envW: real, envH: real, viewW: real, viewH: real,
                 playerW: real, playerH: real, creatureW: real, creatureH: real)
      ensures Valid() && player == null && creatures == [] && boundaries == []
      ensures livesbar.Numbers() == Counter(0, 0) && healthbar.Numbers() == Counter(0, 0)
      ensures score == 0 && nextlife == 400 && running && !victory
      ensures screen == Screen(-envW + viewW, 0.0, -envH + viewH, 0.0, viewW, viewH)
      ensures env == Camera(0.0, 0.0)
    {
      this.envW, this.envH := envW, envH;
      screen := Screen(-envW + viewW, 0.0, -envH + viewH, 0.0, viewW, viewH);
      this.playerW, this.playerH, this.creatureW, this.creatureH := playerW, playerH, creatureW, creatureH;
      livesbar := new LivesBar(0, 0);
      healthbar := new LivesBar(0, 0);
      player := null;
      running, victory := true, false;
      score, nextlife := 0, 400;
      boundaries, creatures := [], [];
      env := Camera(0.0, 0.0);
    }

    /** UpdateSprite: gravity, the edge clamp, the boundary loop (when the
        sprite collides) and the final move. */
    method UpdateSprite(sprite: Sprite, ms: real) returns (result: Sides)
      modifies sprite
      ensures Moved(sprite.Snapshot(), result) == SpriteStep(old(sprite.Snapshot()), ms, envW, boundaries)
      ensures sprite.frame == old(sprite.frame)
    {
      var dX, dY;
      dX, dY, result := ResolveMove(sprite, ms);
      if dX != 0.0 || dY != 0.0 {
        sprite.Move(dX, dY);
      }
    }

    /** UpdateSprite up to the final move: gravity, the edge clamp and, for
        a colliding sprite, the boundary loop, leaving the displacement
        still to apply. */
    method ResolveMove(sprite: Sprite, ms: real) returns (dX: real, dY: real, result: Sides)
      modifies sprite
      ensures StepOf(sprite, dX, dY, result) == Resolved(old(sprite.Snapshot()), ms, envW, boundaries)
      ensures sprite.collide == old(sprite.collide)
      ensures sprite.frame == old(sprite.frame)
    {
      ghost var b0 := sprite.Snapshot();
      sprite.vy := sprite.vy + Gravity * ms;
      dX := sprite.vx * ms;
      dY := sprite.vy * ms;
      var b := sprite.Bounds();
      assert StepOf(sprite, dX, dY, NoHit) == Proposed(b0, ms) && b == b0.Bounds();
      dX, result := PassEdges(sprite, b, dX, dY, envW, EdgeNudge);
      assert StepOf(sprite, dX, dY, result) == EdgeClamp(Proposed(b0, ms), b0.Bounds(), envW, EdgeNudge);
      if sprite.collide {
        dX, dY, result := PassBoundaries(sprite, dX, dY, result, boundaries);
      }
    }

    /** KillCreature: splice out the first occurrence of c. */
    method KillCreature(c: Creature)
      modifies this
      ensures creatures == RemoveFirst(old(creatures), c)
      ensures player == old(player) && Ledger() == old(Ledger()) && victory == old(victory) && env == old(env)
      ensures boundaries == old(boundaries)
    {
      var i := 0;
      while i < |creatures|
        invariant 0 <= i <= |creatures| && creatures == old(creatures)
        invariant c !in creatures[..i]
      {
        if creatures[i] == c {
          IndexOfIsFirst(creatures, c, i);
          creatures := creatures[..i] + creatures[i + 1..];
          return;
        }
        assert creatures[..i + 1] == creatures[..i] + [creatures[i]];
        i := i + 1;
      }
      assert creatures[..i] == creatures;
    }

    /** ChangeHealth(change), with the clock passed in. */
    method ChangeHealth(change: int, now: int) returns (health: int)
      requires Ready()
      modifies healthbar, player
      ensures Ready() && Health() == Hurt(old(Health()), change, now) && health == healthbar.avail
      ensures player.Snapshot() == old(player.Snapshot()) && player.Clock() == old(player.Clock())
    {
      if change < 0 && player.invincible {
        return healthbar.avail;
      }
      player.SetInvincible(now);
      health := healthbar.SetAvailable(healthbar.avail + change);
    }

    method ChangeMaxLives(i: int)
      requires Valid()
      modifies livesbar
      ensures Valid()
      ensures Ledger() == MaxLivesChanged(old(Ledger()), i)
    {
      var _ := livesbar.SetMax(livesbar.max + i);
    }

    method ChangeLives(i: int) returns (lives: int)
      requires Valid()
      modifies this, livesbar
      ensures Valid()
      ensures Ledger() == LivesChanged(old(Ledger()), i) && lives == livesbar.avail
      ensures player == old(player) && creatures == old(creatures) && victory == old(victory) && env == old(env)
      ensures boundaries == old(boundaries)
    {
      lives := livesbar.SetAvailable(livesbar.avail + i);
      if lives == 0 {
        running := false;
      }
    }

    /** SetScore; the score text is not part of this model. */
    method SetScore(score: int)
      requires Valid()
      modifies this, livesbar
      ensures Valid()
      ensures Ledger() == Scored(old(Ledger()), score)
      ensures player == old(player) && creatures == old(creatures) && victory == old(victory) && env == old(env)
      ensures boundaries == old(boundaries)
    {
      this.score := score;
      if this.score >= nextlife {
        ChangeMaxLives(1);
        var _ := ChangeLives(1);
        nextlife := nextlife * 2;
      }
    }

    method SetMaxHealth(health: int)
      requires Valid()
      modifies healthbar
      ensures Valid()
      ensures healthbar.Numbers() == AfterSetMax(old(healthbar.Numbers()), health)
    {
      var _ := healthbar.SetMax(health);
    }

    /** The end of Init, once the level is loaded: score 0, one life slot
        holding one life, three health points (whose gain opens an
        invincibility window), running and not won. */
    method Begin(now: int)
      requires Ready()
      modifies this, livesbar, healthbar, player
      ensures Ready() && player == old(player) && creatures == old(creatures) && boundaries == old(boundaries)
      ensures running && !victory
      ensures old(Ledger()) == Tally(0, 400, Counter(0, 0), true) && old(healthbar.Numbers()) == Counter(0, 0) ==>
                && Ledger() == Tally(0, 400, Counter(1, 1), true)
                && healthbar.Numbers() == Counter(3, 3) && player.invincible
    {
      ghost var t0, h0 := Ledger(), healthbar.Numbers();
      SetScore(0);
      ghost var t1 := Ledger();
      ChangeMaxLives(1);
      ghost var t2 := Ledger();
      var _ := ChangeLives(1);
      ghost var t3, h3 := Ledger(), healthbar.Numbers();
      SetMaxHealth(3);
      ghost var h4 := healthbar.Numbers();
      var _ := ChangeHealth(3, now);
      running, victory := true, false;
      if t0 == Tally(0, 400, Counter(0, 0), true) && h0 == Counter(0, 0) {
        assert t3 == Tally(0, 400, Counter(1, 1), true);
        assert h4 == Counter(0, 3);
      }
    }

    /** CheckKeys with the key states passed in. */
    method CheckKeys(keys: Keys, ms: real)
      requires Ready()
      modifies player, player.sprite
      ensures Ready() && player.Snapshot() == AfterKeys(old(player.Snapshot()), keys, ms, player.tuning)
      ensures player.Clock() == old(player.Clock()) && player.invincible == old(player.invincible)
    {
      if keys.up && !keys.down {
        player.Jump();
      }
      if keys.left && !keys.right {
        player.Left(ms);
      } else if !keys.left && keys.right {
        player.Right(ms);
      } else {
        player.Slow(ms);
      }
    }

    /** UpdateViewport. At ms = 0 with Collide off the source divides by
        zero; callers must not ask for that. */
    method UpdateViewport(ms: real)
      requires player != null && (player.sprite.collide || ms != 0.0)
      modifies this
      ensures player == old(player) && creatures == old(creatures) && boundaries == old(boundaries)
      ensures env == NextCamera(old(env), player.sprite.Snapshot(), screen, ms)
      ensures score == old(score) && nextlife == old(nextlife) && running == old(running) && victory == old(victory)
    {
      var p := player.sprite.Snapshot();
      ghost var next := NextCamera(env, p, screen, ms);
      var t := Target(p, screen);
      var dy := t.y - env.y;
      var dx := t.x - env.x;
      if player.sprite.collide {
        if ms == 0.0 || (dy < 1.0 && dy > -1.0) {
          env := t;
          return;
        }
      }
      var r := 0.1 * ms;
      var d := Camera(dx / r, dy / r);
      if player.sprite.collide {
        d := d.(y := ClimbStep(dy));
      }
      env := Camera(env.x + d.x, env.y + d.y);
      env := Camera(Round(env.x), Round(env.y));
      assert env == next;
    }

    /** HandleAddBlock for one tile of the map: START places the player and
        is a boundary too, FLOOR is a boundary, BADGUY places a mushroom. */
    method HandleAddBlock(t: Tile, now: int)
      requires Valid()
      modifies this
      ensures Valid()
      ensures boundaries == old(boundaries) + TileBoundary(t)
      ensures t.kind == Start ==> && player != null && fresh(player)
                                  && player.sprite.Snapshot() == Body(t.x, t.y - playerH, playerW, playerH, 0.0, 0.0, true)
                                  && player.startX == t.x && player.startY == t.y
      ensures t.kind != Start ==> player == old(player)
      ensures t.kind == Badguy ==> && |creatures| == |old(creatures)| + 1 && creatures[..|old(creatures)|] == old(creatures)
                                   && fresh(creatures[|old(creatures)|])
                                   && creatures[|old(creatures)|].sprite.Snapshot() == Body(t.x, t.y - creatureH, creatureW, creatureH, -0.05, 0.0, true)
      ensures t.kind != Badguy ==> creatures == old(creatures)
      ensures Ledger() == old(Ledger()) && env == old(env) && victory == old(victory)
    {
      if t.kind == Start {
        player := new Player(t.x, t.y, playerW, playerH, now);
        boundaries := boundaries + [TileRect(t)];
      } else if t.kind == Floor {
        boundaries := boundaries + [TileRect(t)];
      } else if t.kind == Badguy {
        var c := new Creature.Mushroom(t.x, t.y, creatureW, creatureH, now);
        creatures := creatures + [c];
        assert creatures[..|old(creatures)|] == old(creatures);
      }
    }

    /** What loading a map needs to know of one HandleAddBlock call. */
    method PlaceTile(t: Tile, now: int)
      requires Valid()
      modifies this
      ensures Valid()
      ensures boundaries == old(boundaries) + TileBoundary(t)
      ensures |creatures| == |old(creatures)| + (if t.kind == Badguy then 1 else 0)
      ensures Extends(creatures, old(creatures))
    {
      HandleAddBlock(t, now);
    }

    /** The map loader's calls to HandleAddBlock, in map order. */
    method LoadTiles(tiles: seq<Tile>, now: int)
      requires Valid()
      modifies this
      ensures Valid()
      ensures boundaries == old(boundaries) + TileBoundaries(tiles)
      ensures |creatures| == |old(creatures)| + CountBadguys(tiles)
      ensures Extends(creatures, old(creatures))
    {
      ghost var b0, c0 := boundaries, creatures;
      var i := 0;
      while i < |tiles|
        invariant 0 <= i <= |tiles| && Valid()
        invariant boundaries == b0 + TileBoundaries(tiles[..i])
        invariant |creatures| == |c0| + CountBadguys(tiles[..i])
        invariant Extends(creatures, c0)
      {
        ghost var cb := creatures;
        PlaceTile(tiles[i], now);
        LoadStep(tiles, i);
        ExtendsTrans(creatures, cb, c0);
        i := i + 1;
      }
      assert tiles[..i] == tiles;
    }

    /** What the player meeting creature c did, from the state before to
        this one: a kill shot scores, removes the creature and bounces the
        player; any other contact, unless the player is invincible, throws
        the player back and costs one health, and with no health left the
        player dies; without contact nothing changes. */
    twostate predicate Met(c: Creature, kill: bool, now: int)
      requires old(player) != null && player == old(player)
      reads this, player, player.sprite, livesbar, healthbar
    {
      var contact := old(player.sprite.collide) && CollidesWith(old(player.sprite.Bounds()), old(c.sprite.Bounds()));
      && (kill <==> contact && IsKillShot(old(player.sprite.Snapshot()), old(c.sprite.Snapshot())))
      && (kill ==> && creatures == RemoveFirst(old(creatures), c)
                   && Ledger() == Scored(old(Ledger()), old(score) + c.points)
                   && player.Snapshot() == Bounced(old(player.Snapshot()), old(c.sprite.y), player.tuning))
      && (!kill ==> creatures == old(creatures) && Ledger() == old(Ledger()))
      && (!contact ==> player.Snapshot() == old(player.Snapshot()) && Health() == old(Health()))
      && (contact && !kill && old(player.invincible) ==> Health() == old(Health()))
      && (contact && !kill && !old(player.invincible) ==> Health() == Hurt(old(Health()), -1, now))
      && (contact && !kill ==>
            var hit := if old(player.invincible) then old(player.Snapshot())
                       else Rebounded(old(player.Snapshot()), old(c.sprite.x), old(c.sprite.y), player.tuning);
            player.Snapshot() == if healthbar.avail == 0 then Died(hit, player.tuning) else hit)
    }

    /** The player meeting one creature, as Met describes. */
    method Interact(c: Creature, now: int) returns (kill: bool)
      requires Ready()
      modifies this, player, player.sprite, livesbar, healthbar
      ensures Ready() && player == old(player) && boundaries == old(boundaries) && env == old(env)
      ensures victory == old(victory) && Met(c, kill, now)
    {
      var cx, cy := c.sprite.x, c.sprite.y;
      kill := false;
      if player.sprite.collide && CollidesWith(player.sprite.Bounds(), c.sprite.Bounds()) {
        if IsKillShot(player.sprite.Snapshot(), c.sprite.Snapshot()) {
          kill := true;
          SetScore(score + c.points);
          ApartRemoveFirst(creatures, c, player);
          KillCreature(c);
          player.Bounce(cy);
        } else {
          var health := healthbar.avail;
          if !player.invincible {
            player.Rebound(cx, cy);
            health := ChangeHealth(-1, now);
          }
          if health == 0 {
            player.Die();
          }
        }
      }
    }

    /** The end of a frame: falling more than 1000 pixels below the level
        costs a life and, with lives left, restores full health and sends
        the player back to the start; reaching 100 pixels from the right
        end wins. `b` is the player's rectangle after this frame's move. */
    method CheckFallAndVictory(b: Rect, now: int)
      requires Ready()
      modifies this, player, player.sprite, livesbar, healthbar
      ensures Ready() && player == old(player) && creatures == old(creatures) && boundaries == old(boundaries)
      ensures b.y + b.h > envH + 1000.0 ==> Ledger().lives == AfterSetAvailable(old(livesbar.Numbers()), old(livesbar.avail) - 1)
      ensures b.y + b.h > envH + 1000.0 && livesbar.avail > 0 ==>
                && healthbar.avail == healthbar.max
                && player.sprite.x == player.startX && player.sprite.y == player.startY
                && player.sprite.collide && player.sprite.vx == 0.0 && player.sprite.vy == 0.0
                && env == Target(player.sprite.Snapshot(), screen)
      ensures b.y + b.h > envH + 1000.0 && livesbar.avail == 0 ==>
                && !running && env == old(env)
                && player.Snapshot() == old(player.Snapshot()) && Health() == old(Health())
      ensures b.y + b.h <= envH + 1000.0 ==> livesbar.Numbers() == old(livesbar.Numbers()) && player.Snapshot() == old(player.Snapshot())
      ensures b.x + b.w >= envW - 100.0 ==> victory && !running
      ensures b.x + b.w < envW - 100.0 ==> victory == old(victory) && (running ==> old(running))
      ensures score == old(score) && nextlife == old(nextlife)
    {
      if b.y + b.h > envH + 1000.0 {
        var lives := ChangeLives(-1);
        if lives > 0 {
          var _ := ChangeHealth(healthbar.max, now);
          player.Respawn();
          UpdateViewport(0.0);
        }
      }
      if b.x + b.w >= envW - 100.0 {
        running := false;
        victory := true;
      }
    }

    /** One creature's turn in a frame: it meets the player, and when it is
        on screen it moves and patrols. */
    method Visit(c: Creature, ms: real, now: int, onScreen: bool) returns (kill: bool)
      requires Ready() && c.Valid() && c.sprite != player.sprite
      modifies this, player, player.sprite, livesbar, healthbar, c, c.sprite
      ensures Ready() && c.Valid() && player == old(player) && boundaries == old(boundaries)
      ensures env == old(env) && victory == old(victory) && Met(c, kill, now)
      ensures c.View() == CreatureFrame(old(c.View()), c.speed, ms, now, envW, boundaries, onScreen)
    {
      kill := Interact(c, now);
      if onScreen {
        var result := UpdateSprite(c.sprite, ms);
        c.Update(result, ms, now);
      }
    }

    /** Turn i of the creature loop over the copy `cs`, whose views at the
        start of the loop were `v0`: creature cs[i] visits, and no other
        creature of the copy changes. */
    method Turn(cs: seq<Creature>, ghost v0: seq<CreatureView>, i: nat, ms: real, now: int, visible: set<Creature>)
      returns (kill: bool)
      requires Ready() && i < |cs| && Apart(cs, player)
      requires Progress(cs, v0, i, ms, now, envW, boundaries, visible) && Settled(v0[i]) && cs[i].speed >= 0.0
      modifies this, player, player.sprite, livesbar, healthbar, cs[i], cs[i].sprite
      ensures Ready() && player == old(player) && boundaries == old(boundaries)
      ensures env == old(env) && victory == old(victory)
      ensures kill ==> creatures == RemoveFirst(old(creatures), cs[i]) && score == old(score) + cs[i].points
      ensures !kill ==> creatures == old(creatures) && Ledger() == old(Ledger())
      ensures !old(player.sprite.collide) ==>
                !kill && player.Snapshot() == old(player.Snapshot()) && Health() == old(Health())
      ensures Progress(cs, v0, i + 1, ms, now, envW, boundaries, visible)
    {
      assert forall j | 0 <= j < |cs| && j != i :: cs[j] != cs[i] && cs[j].sprite != cs[i].sprite;
      assert cs[i].View() == v0[i];
      kill := Visit(cs[i], ms, now, cs[i] in visible);
    }

    /** The creature loop of a frame. It walks a copy of the creature list
        taken at the start of the frame, so a kill does not disturb the visit
        order, and every creature of that copy takes its turn once. */
    method VisitAll(ms: real, now: int, visible: set<Creature>) returns (ghost killed: seq<Creature>)
      requires Ready()
      modifies this, player, player.sprite, livesbar, healthbar
      modifies creatures, set c | c in creatures :: c.sprite
      ensures Ready() && player == old(player) && boundaries == old(boundaries)
      ensures env == old(env) && victory == old(victory)
      ensures creatures == RemoveEach(old(creatures), killed)
      ensures multiset(killed) <= multiset(old(creatures))
      ensures score == old(score) + Points(killed)
      ensures !old(player.sprite.collide) ==>
                killed == [] && player.Snapshot() == old(player.Snapshot()) && Health() == old(Health())
      ensures forall c | c in old(creatures) :: TookTurn(c, old(c.View()), ms, now, envW, boundaries, visible)
    {
      var cs := creatures;
      ghost var v0 := Views(cs);
      assert forall j | 0 <= j < |cs| :: cs[j] in creatures;
      killed := Walk(cs, v0, ms, now, visible);
      assert forall j | 0 <= j < |cs| :: v0[j] == old(cs[j].View());
    }

    /** The loop of VisitAll over its copy cs of the creature list, whose
        views were v0 when the frame began. */
    method Walk(cs: seq<Creature>, ghost v0: seq<CreatureView>, ms: real, now: int, visible: set<Creature>)
      returns (ghost killed: seq<Creature>)
      requires Ready() && creatures == cs && Apart(cs, player)
      requires Progress(cs, v0, 0, ms, now, envW, boundaries, visible)
      requires forall j | 0 <= j < |cs| :: Settled(v0[j]) && cs[j].speed >= 0.0
      modifies this, player, player.sprite, livesbar, healthbar, cs, set c | c in cs :: c.sprite
      ensures Ready() && player == old(player) && boundaries == old(boundaries)
      ensures env == old(env) && victory == old(victory)
      ensures creatures == RemoveEach(cs, killed)
      ensures multiset(killed) <= multiset(cs)
      ensures score == old(score) + Points(killed)
      ensures !old(player.sprite.collide) ==>
                killed == [] && player.Snapshot() == old(player.Snapshot()) && Health() == old(Health())
      ensures Progress(cs, v0, |cs|, ms, now, envW, boundaries, visible)
    {
      killed := [];
      var i := 0;
      while i < |cs|
        invariant 0 <= i <= |cs| && Ready() && player == old(player) && boundaries == old(boundaries)
        invariant env == old(env) && victory == old(victory)
        invariant creatures == RemoveEach(cs, killed)
        invariant multiset(killed) <= multiset(cs[..i])
        invariant score == old(score) + Points(killed)
        invariant !old(player.sprite.collide) ==>
                    killed == [] && player.Snapshot() == old(player.Snapshot()) && Health() == old(Health())
        invariant Apart(cs, player)
        invariant Progress(cs, v0, i, ms, now, envW, boundaries, visible)
      {
        var c := cs[i];
        var kill := Turn(cs, v0, i, ms, now, visible);
        KilledStep(cs, i, killed);
        if kill {
          PointsStep(killed, c);
          killed := killed + [c];
        }
        i := i + 1;
      }
      assert cs[..i] == cs;
    }

    /** The player's part of a frame, after the creatures have had their
        turns: the player moves and lands, then falling out of the level and
        reaching its right end are checked. `met` and `tally` are the player
        and the bars as the creatures left them. */
    method PlayerTurn(ms: real, now: int) returns (ghost met: Pose, ghost tally: Tally)
      requires Ready()
      modifies this, player, player.sprite, livesbar, healthbar
      ensures Ready() && player == old(player) && boundaries == old(boundaries)
      ensures creatures == old(creatures) && met == old(player.Snapshot()) && tally == old(Ledger())
      ensures score == old(score)
      ensures var m := SpriteStep(met.body, ms, envW, boundaries);
              var b := m.body.Bounds();
              && (b.y + b.h <= envH + 1000.0 ==>
                    && player.sprite.Snapshot() == m.body && player.state == Landed(met.state, m.result)
                    && livesbar.Numbers() == tally.lives)
              && (b.y + b.h > envH + 1000.0 ==> livesbar.Numbers() == AfterSetAvailable(tally.lives, tally.lives.avail - 1))
              && (b.y + b.h > envH + 1000.0 && livesbar.avail == 0 ==> !running)
              && (b.y + b.h > envH + 1000.0 && livesbar.avail > 0 ==>
                    && player.sprite.x == player.startX && player.sprite.y == player.startY
                    && healthbar.avail == healthbar.max)
              && (b.x + b.w >= envW - 100.0 ==> victory && !running)
              && (b.x + b.w < envW - 100.0 ==> victory == old(victory))
    {
      met, tally := player.Snapshot(), Ledger();
      var result := UpdateSprite(player.sprite, ms);
      player.Update(result, ms, now);
      CheckFallAndVictory(player.sprite.Bounds(), now);
    }

    /** One frame: the creature loop, then the player moves and animates,
        then the fall and victory checks. Which creatures are on screen is
        passed in. `met` is the player after the creature loop and `tally`
        the score, lives and running flag then. */
    method Update(ms: real, now: int, visible: set<Creature>)
      returns (ghost killed: seq<Creature>, ghost met: Pose, ghost tally: Tally)
      requires Ready()
      modifies this, player, player.sprite, livesbar, healthbar
      modifies set c | c in creatures, set c | c in creatures :: c.sprite
      ensures Ready() && player == old(player) && boundaries == old(boundaries)
      ensures creatures == RemoveEach(old(creatures), killed)
      ensures multiset(killed) <= multiset(old(creatures))
      ensures score == tally.score == old(score) + Points(killed)
      ensures !old(player.sprite.collide) ==> killed == [] && met == old(player.Snapshot())
      ensures forall c | c in old(creatures) ::
                c.View() == CreatureFrame(old(c.View()), c.speed, ms, now, envW, boundaries, c in visible)
      ensures var m := SpriteStep(met.body, ms, envW, boundaries);
              var b := m.body.Bounds();
              && (b.y + b.h <= envH + 1000.0 ==>
                    && player.sprite.Snapshot() == m.body && player.state == Landed(met.state, m.result)
                    && livesbar.Numbers() == tally.lives)
              && (b.y + b.h > envH + 1000.0 ==> livesbar.Numbers() == AfterSetAvailable(tally.lives, tally.lives.avail - 1))
              && (b.y + b.h > envH + 1000.0 && livesbar.avail == 0 ==> !running)
              && (b.y + b.h > envH + 1000.0 && livesbar.avail > 0 ==>
                    && player.sprite.x == player.startX && player.sprite.y == player.startY
                    && healthbar.avail == healthbar.max)
              && (b.x + b.w >= envW - 100.0 ==> victory && !running)
              && (b.x + b.w < envW - 100.0 ==> victory == old(victory))
    {
      killed := VisitAll(ms, now, visible);
      met, tally := PlayerTurn(ms, now);
    }
  }
}
