/** main.go, the earlier revision: the per-frame game state. Gravity is a
    fixed 0.2 per frame, every sprite always collides, UpdateSprite ends by
    rounding the position, and the camera is not rounded. */
module EarlyState {
  import opened Common
  import opened Collision
  import opened Animation
  import opened EarlyActors

  // ---------------------------------------------------------------------
  // UpdateSprite on values

  /** Gravity added to the vertical speed once per frame. */
  const Gravity: real := 0.2

  /** A sprite after UpdateSprite: its new value and the sides it hit. */
  datatype Moved = Moved(body: Body, result: Sides)

  /** The move UpdateSprite proposes: gravity is added once, whatever the
      frame time, and each displacement is its speed times ms. */
  function Proposed(b: Body, ms: real): (r: Step)
    ensures r.x == b.x && r.y == b.y && r.vx == b.vx && r.result == NoHit
    ensures r.vy == b.vy + Gravity
    ensures r.dX == r.vx * ms && r.dY == r.vy * ms
  {
    var vy := b.vy + Gravity;
    Step(b.x, b.y, b.vx, vy, b.vx * ms, vy * ms, NoHit)
  }

  /** The edge clamp (no nudge in this revision), then the boundary loop. */
  function Resolved(b: Body, ms: real, envW: real, blocks: seq<Rect>): Step {
    Resolve(EdgeClamp(Proposed(b, ms), b.Bounds(), envW, 0.0), b.w, b.h, blocks)
  }

  /** The sprite after the final move, before rounding. */
  function Unrounded(b: Body, ms: real, envW: real, blocks: seq<Rect>): Moved {
    var s := Resolved(b, ms, envW, blocks);
    Moved(Body(s.x + s.dX, s.y + s.dY, b.w, b.h, s.vx, s.vy, b.collide), s.result)
  }

  /** UpdateSprite with the source's own Round, which lands one pixel low on
      every non-positive coordinate. */
  function SpriteStepAsWritten(b: Body, ms: real, envW: real, blocks: seq<Rect>): (r: Moved)
    ensures IsIntegral(r.body.x) && IsIntegral(r.body.y)
    ensures var u := Unrounded(b, ms, envW, blocks);
            && u.body.x - 1.5 < r.body.x <= u.body.x + 0.5
            && u.body.y - 1.5 < r.body.y <= u.body.y + 0.5
            && (u.body.x <= 0.0 ==> r.body.x <= u.body.x - 0.5)
            && r.result == u.result && r.body.vx == u.body.vx && r.body.vy == u.body.vy
    ensures r.body.w == b.w && r.body.h == b.h && r.body.collide == b.collide
  {
    var u := Unrounded(b, ms, envW, blocks);
    u.(body := u.body.(x := RoundAsWritten(u.body.x), y := RoundAsWritten(u.body.y)))
  }

  /** UpdateSprite with Round half away from zero: the sprite ends on whole
      pixels, within half a pixel of where the move put it. */
  function SpriteStep(b: Body, ms: real, envW: real, blocks: seq<Rect>): (r: Moved)
    ensures IsIntegral(r.body.x) && IsIntegral(r.body.y)
    ensures var u := Unrounded(b, ms, envW, blocks);
            && u.body.x - 0.5 <= r.body.x <= u.body.x + 0.5
            && u.body.y - 0.5 <= r.body.y <= u.body.y + 0.5
            && r.result == u.result && r.body.vx == u.body.vx && r.body.vy == u.body.vy
    ensures r.body.w == b.w && r.body.h == b.h && r.body.collide == b.collide
  {
    var u := Unrounded(b, ms, envW, blocks);
    u.(body := u.body.(x := Round(u.body.x), y := Round(u.body.y)))
  }

  /** As written, a sprite standing at a whole-pixel x <= 0 with no
      horizontal speed and nothing in the way moves one pixel further left
      every frame: at the level's left edge it walks out of the level. */
  lemma DriftsLeftAsWritten(b: Body, ms: real, envW: real, n: int)
    requires n <= 0 && b.x == n as real && b.vx == 0.0 && b.w <= envW
    ensures SpriteStepAsWritten(b, ms, envW, []).body.x == (n - 1) as real
  {
    RoundAsWrittenShiftsNonPositive(n);
  }

  /** No tunnelling is not promised: a 10 by 10 sprite at the origin
      falling and running at 0.3 for 50 ms passes the corner of the block at
      (10, 10) and ends inside it, with no side hit. */
  lemma CornerTunnelsInFrame()
    ensures var r := SpriteStep(Body(0.0, 0.0, 10.0, 10.0, 0.3, 0.1, true), 50.0, 1000.0, [Rect(10.0, 10.0, 32.0, 32.0)]);
            && r.body.x == 15.0 && r.body.y == 15.0 && r.result == NoHit
            && Overlaps(r.body.Bounds(), Rect(10.0, 10.0, 32.0, 32.0))
  {
    var b := Body(0.0, 0.0, 10.0, 10.0, 0.3, 0.1, true);
    var s := Proposed(b, 50.0);
    assert s == Step(0.0, 0.0, 0.3, 0.3, 15.0, 15.0, NoHit);
    assert EdgeClamp(s, b.Bounds(), 1000.0, 0.0) == s;
    CornerTunnels();
    assert IsIntegral(15.0) by { assert 15.0 == 15 as real; }
  }

  /** With the corrected Round the same sprite stays put. */
  lemma StaysPut(b: Body, ms: real, envW: real, n: int)
    requires n <= 0 && b.x == n as real && b.vx == 0.0 && b.w <= envW
    ensures SpriteStep(b, ms, envW, []).body.x == n as real
  {
    assert IsIntegral(n as real);
  }

  /** Every reported side stopped the motion across it. */
  lemma HitsStopMotion(b: Body, ms: real, envW: real, blocks: seq<Rect>)
    ensures var r := SpriteStep(b, ms, envW, blocks);
            && ((r.result.left || r.result.right) ==> r.body.vx == 0.0)
            && ((r.result.top || r.result.bottom) ==> r.body.vy == 0.0)
  {
    var s := EdgeClamp(Proposed(b, ms), b.Bounds(), envW, 0.0);
    var r := Resolve(s, b.w, b.h, blocks);
    if !SameVertical(s.result, r.result) {
      ResolveVerticalHitStops(s, b.w, b.h, blocks);
    }
    if s.result.left || s.result.right {
      ResolveKeepsStoppedX(s, b.w, b.h, blocks);
    } else if !SameHorizontal(s.result, r.result) {
      ResolveHorizontalHitStops(s, b.w, b.h, blocks);
    }
  }

  /** Left edge: a sprite at x = 0 moving left is stopped where it is and
      reported as a left hit (no push back in this revision). */
  lemma LeftEdgeStops(b: Body, ms: real, envW: real, blocks: seq<Rect>)
    requires b.x == 0.0 && b.vx < 0.0 && ms > 0.0 && b.w <= envW
    ensures var r := SpriteStep(b, ms, envW, blocks);
            r.result.left && !r.result.right && r.body.vx == 0.0 && r.body.x == 0.0
  {
    assert b.vx * ms < 0.0;
    ResolveKeepsStoppedX(EdgeClamp(Proposed(b, ms), b.Bounds(), envW, 0.0), b.w, b.h, blocks);
    IntIsIntegral(0);
  }

  /** Right edge, the mirror image, for a sprite on whole pixels. */
  lemma RightEdgeStops(b: Body, ms: real, envW: real, blocks: seq<Rect>)
    requires b.x + b.w == envW && b.vx > 0.0 && ms > 0.0 && b.x >= 0.0 && IsIntegral(b.x)
    ensures var r := SpriteStep(b, ms, envW, blocks);
            r.result.right && !r.result.left && r.body.vx == 0.0 && r.body.x == b.x
  {
    assert b.vx * ms > 0.0;
    ResolveKeepsStoppedX(EdgeClamp(Proposed(b, ms), b.Bounds(), envW, 0.0), b.w, b.h, blocks);
  }

  /** A standing sprite on whole pixels resting on a floor block stays
      where it is, with a bottom hit and no vertical speed left (frames are
      at most 50 ms, as the main loop caps them). */
  lemma RestsOnFloor(b: Body, ms: real, envW: real, block: Rect)
    requires b.vx == 0.0 && b.vy == 0.0 && 0.0 < ms <= 50.0 && IsIntegral(b.x) && IsIntegral(b.y)
    requires 0.0 <= b.x && b.x + b.w <= envW && b.w > 0.0 && b.h > 0.0
    requires block.y == b.y + b.h && block.h == BlockSize
    requires block.x < b.x + b.w && b.x < block.x + block.w
    ensures var r := SpriteStep(b, ms, envW, [block]);
            && r.body.x == b.x && r.body.y == b.y && r.body.vx == 0.0 && r.body.vy == 0.0
            && r.result == NoHit.(bottom := true)
  {
    var s := EdgeClamp(Proposed(b, ms), b.Bounds(), envW, 0.0);
    assert s == Proposed(b, ms);
    assert s.dY == Gravity * ms && s.dX == 0.0;
    assert 0.0 < s.dY <= 10.0;
    var moved := Translate(Box(s, b.w, b.h), 0.0, s.dY);
    assert moved == Rect(b.x, b.y + s.dY, b.w, b.h);
    assert !TestMove(Box(s, b.w, b.h), 0.0, s.dY, block);
    assert Resolve(s, b.w, b.h, [block]) == BlockStep(s, b.w, b.h, block);
  }

  // ---------------------------------------------------------------------
  // The camera on values

  /** Where UpdateViewport wants the level: the player's corner centred. */
  function Target(p: Body, sc: Screen): (t: Camera)
    ensures sc.Valid() ==> InView(t, sc)
    // x and y centre the player's top left corner
    ensures var cx := -p.x + sc.viewW / 2.0;
            && (sc.xmin <= cx <= sc.xmax ==> t.x == cx)
            && (sc.xmin <= sc.xmax && cx < sc.xmin ==> t.x == sc.xmin)
            && (cx > sc.xmax ==> t.x == sc.xmax)
    ensures var cy := -p.y + sc.viewH / 2.0;
            && (sc.ymin <= cy <= sc.ymax ==> t.y == cy)
            && (sc.ymin <= sc.ymax && cy < sc.ymin ==> t.y == sc.ymin)
            && (cy > sc.ymax ==> t.y == sc.ymax)
  {
    Camera(Clamp(-p.x + sc.viewW / 2.0, sc.xmin, sc.xmax),
           Clamp(-p.y + sc.viewH / 2.0, sc.ymin, sc.ymax))
  }

  /** UpdateViewport: a snap at ms = 0, otherwise a step of dx/(0.1 ms)
      across and, within 200 pixels of the target, a tenth of that down. */
  function NextCamera(cam: Camera, p: Body, sc: Screen, ms: real): (r: Camera)
    ensures ms == 0.0 ==> r == Target(p, sc)
  {
    if ms == 0.0 then Target(p, sc) else Damped(cam, Target(p, sc), ms)
  }

  /** The damped step of UpdateViewport from cam towards the target t. */
  function Damped(cam: Camera, t: Camera, ms: real): (r: Camera)
    requires ms != 0.0
    ensures ms > 0.0 ==> (cam.x <= t.x ==> cam.x <= r.x) && (t.x <= cam.x ==> r.x <= cam.x)
    ensures ms > 0.0 ==> (cam.y <= t.y ==> cam.y <= r.y) && (t.y <= cam.y ==> r.y <= cam.y)
    ensures ms == 10.0 ==> r.x == t.x
  {
    var r := 0.1 * ms;
    var dx := t.x - cam.x;
    var dy := t.y - cam.y;
    var stepY := if dy < 200.0 && dy > -200.0 then dy / r / 10.0 else dy / r;
    Camera(cam.x + dx / r, cam.y + stepY)
  }

  /** UpdateViewport(0) puts the camera inside the scroll limits. */
  lemma SnapInView(cam: Camera, p: Body, sc: Screen)
    requires sc.Valid()
    ensures InView(NextCamera(cam, p, sc, 0.0), sc)
  {
  }

  /** With frames of at least 10 ms the damped camera never overshoots, so it
      stays inside the scroll limits. */
  lemma DampedStaysInView(cam: Camera, p: Body, sc: Screen, ms: real)
    requires ms >= 10.0 && sc.Valid() && InView(cam, sc)
    ensures InView(NextCamera(cam, p, sc, ms), sc)
  {
    DampedInView(cam, Target(p, sc), sc, ms);
  }

  /** The damped step between two cameras inside the limits stays inside. */
  lemma DampedInView(cam: Camera, t: Camera, sc: Screen, ms: real)
    requires ms >= 10.0 && InView(cam, sc) && InView(t, sc)
    ensures InView(Damped(cam, t, ms), sc)
  {
    var r := 0.1 * ms;
    var dy := t.y - cam.y;
    StepStaysBetween(sc.xmin, sc.xmax, cam.x, t.x, r);
    if dy < 200.0 && dy > -200.0 {
      DivideTwice(dy, r, 10.0);
      StepStaysBetween(sc.ymin, sc.ymax, cam.y, t.y, r * 10.0);
    } else {
      StepStaysBetween(sc.ymin, sc.ymax, cam.y, t.y, r);
    }
  }

  /** A step of (t - c)/r from c towards t, r >= 1, stays in any range
      holding both ends. */
  lemma StepStaysBetween(lo: real, hi: real, c: real, t: real, r: real)
    requires lo <= c <= hi && lo <= t <= hi && r >= 1.0
    ensures lo <= c + (t - c) / r <= hi
  {
    SharedStepBetween(c, t, r);
  }

  lemma DivideTwice(a: real, r: real, k: real)
    requires r > 0.0 && k > 0.0
    ensures a / r / k == a / (r * k)
  {
    var q := a / r / k;
    assert q * k == a / r;
    assert q * k * r == a;
    assert q * (r * k) == a;
  }

  // ---------------------------------------------------------------------
  // Lives and score on values

  /** AddLife: one more life, nothing used. */
  function LifeAdded(b: Bar): (r: Bar)
    ensures r.lives + r.used == b.lives + b.used + 1 && r.used == b.used
  {
    b.(lives := b.lives + 1)
  }

  /** LoseLife: one life moves from left to used; nothing clamps, so the
      count of lives can go negative. */
  function LifeLost(b: Bar): (r: Bar)
    ensures r.lives + r.used == b.lives + b.used
    ensures r.lives == b.lives - 1 && r.used == b.used + 1
  {
    Bar(b.used + 1, b.lives - 1)
  }

  /** Losing more lives than there are leaves a negative count. */
  lemma LivesGoNegative()
    ensures LifeLost(LifeLost(Bar(0, 1))) == Bar(2, -1)
  {
  }

  /** Score, extra-life threshold and the lives bar. */
  datatype Tally = Tally(score: int, nextlife: int, bar: Bar)

  /** SetScore: reaching the threshold adds one life and doubles the
      threshold, once per call. */
  function Scored(t: Tally, score: int): (r: Tally)
    ensures r.score == score
    ensures score < t.nextlife ==> r == t.(score := score)
    ensures score >= t.nextlife ==>
              r.nextlife == 2 * t.nextlife && r.bar == Bar(t.bar.used, t.bar.lives + 1)
  {
    if score >= t.nextlife then Tally(score, t.nextlife * 2, LifeAdded(t.bar))
    else t.(score := score)
  }

  /** From the initial threshold of 100: 250 points add one life and move
      the threshold to 200, not 400. */
  lemma ThresholdExample(b: Bar)
    ensures Scored(Tally(0, 100, b), 250) == Tally(250, 200, Bar(b.used, b.lives + 1))
  {
  }

  /** The earlier IsKillShot: the player is falling and its feet are less
      than half the creature's height below the creature's top. */
  function IsKillShot(p: Body, c: Body): (r: bool)
    ensures r <==> p.vy > 0.0 && p.y + p.h < c.y + c.h / 2.0
    ensures r ==> p.vy > 0.0
    ensures p.y + p.h >= c.y + c.h / 2.0 ==> !r
    ensures c.h > 0.0 && p.vy > 0.0 && p.y + p.h <= c.y ==> r
  {
    var buffery := c.h / 2.0;
    var downward := p.vy > 0.0;
    var hitshead := p.y + p.h - c.y < buffery;
    downward && hitshead
  }

  /** Total points of the creatures killed, in order. */
  function Points(killed: seq<Creature>): int {
    if killed == [] then 0 else Points(killed[..|killed| - 1]) + killed[|killed| - 1].points
  }

  lemma PointsStep(killed: seq<Creature>, c: Creature)
    ensures Points(killed + [c]) == Points(killed) + c.points
  {
    assert (killed + [c])[..|killed|] == killed;
  }

  /** What one creature's turn did to the score and the lives bar: no
      contact, a contact that cost a life, or a kill worth `points`. */
  datatype Event = Missed | Struck | Stomped(points: int)

  /** One turn's bookkeeping: a kill goes through SetScore, a strike
      through LoseLife. */
  function Apply(t: Tally, e: Event): Tally {
    match e
    case Missed => t
    case Struck => t.(bar := LifeLost(t.bar))
    case Stomped(points) => Scored(t, t.score + points)
  }

  /** The bookkeeping of a run of turns, in order. */
  function Replay(t: Tally, es: seq<Event>): Tally
    decreases |es|
  {
    if es == [] then t else Apply(Replay(t, es[..|es| - 1]), es[|es| - 1])
  }

  function Strikes(es: seq<Event>): nat
    decreases |es|
  {
    if es == [] then 0 else Strikes(es[..|es| - 1]) + (if es[|es| - 1] == Struck then 1 else 0)
  }

  function Kills(es: seq<Event>): nat
    decreases |es|
  {
    if es == [] then 0 else Kills(es[..|es| - 1]) + (if es[|es| - 1].Stomped? then 1 else 0)
  }

  lemma ReplayStep(t: Tally, es: seq<Event>, e: Event)
    ensures Replay(t, es + [e]) == Apply(Replay(t, es), e)
    ensures Strikes(es + [e]) == Strikes(es) + (if e == Struck then 1 else 0)
    ensures Kills(es + [e]) == Kills(es) + (if e.Stomped? then 1 else 0)
  {
    assert (es + [e])[..|es|] == es;
  }

  /** A run of turns with no contact has neither strikes nor kills. */
  lemma {:induction false} AllMissed(es: seq<Event>)
    requires forall j | 0 <= j < |es| :: es[j] == Missed
    ensures Strikes(es) == 0 && Kills(es) == 0
    decreases |es|
  {
    if es != [] {
      AllMissed(es[..|es| - 1]);
    }
  }

  /** Over any run of turns every strike uses up exactly one life, and
      lives come back only through kills, at most one per kill; without a
      kill the score and the threshold stay as they were, and with neither
      kill nor strike nothing changes. */
  lemma {:induction false} ReplayBar(t: Tally, es: seq<Event>)
    ensures Replay(t, es).bar.used == t.bar.used + Strikes(es)
    ensures t.bar.lives - Strikes(es) <= Replay(t, es).bar.lives <= t.bar.lives - Strikes(es) + Kills(es)
    ensures Kills(es) == 0 ==> Replay(t, es).score == t.score && Replay(t, es).nextlife == t.nextlife
    ensures Kills(es) == 0 && Strikes(es) == 0 ==> Replay(t, es) == t
    decreases |es|
  {
    if es != [] {
      var pre := es[..|es| - 1];
      ReplayBar(t, pre);
      assert pre + [es[|es| - 1]] == es;
      ReplayStep(t, pre, es[|es| - 1]);
    }
  }

  // ---------------------------------------------------------------------
  // A creature's frame on values

  /** What the frame loop does to a creature's sprite once the player has
      met it: off screen nothing; on screen UpdateSprite's step, after which
      a right hit sends it left at its own speed and otherwise a left hit
      sends it right. */
  function CreatureFrame(b: Body, speed: real, ms: real, envW: real, blocks: seq<Rect>, onScreen: bool): (r: Body)
    ensures !onScreen ==> r == b
    ensures onScreen ==>
              var m := SpriteStep(b, ms, envW, blocks);
              && r == m.body.(vx := r.vx)
              && (m.result.right ==> r.vx == -speed)
              && (!m.result.right && m.result.left ==> r.vx == speed)
              && (!m.result.right && !m.result.left ==> r.vx == m.body.vx)
  {
    if !onScreen then b
    else
      var m := SpriteStep(b, ms, envW, blocks);
      if m.result.right then m.body.(vx := -speed)
      else if m.result.left then m.body.(vx := speed)
      else m.body
  }

  /** A creature on screen walking into the right end of the level turns
      round where it stands and walks left at its speed. */
  lemma CreatureTurnsAtRightEdge(b: Body, speed: real, ms: real, envW: real, blocks: seq<Rect>)
    requires b.x + b.w == envW && b.vx > 0.0 && ms > 0.0 && b.x >= 0.0 && IsIntegral(b.x)
    ensures var r := CreatureFrame(b, speed, ms, envW, blocks, true);
            r.vx == -speed && r.x == b.x
  {
    RightEdgeStops(b, ms, envW, blocks);
  }

  /** A creature on screen walking into the left end turns round at x = 0
      and walks right at its speed. */
  lemma CreatureTurnsAtLeftEdge(b: Body, speed: real, ms: real, envW: real, blocks: seq<Rect>)
    requires b.x == 0.0 && b.vx < 0.0 && ms > 0.0 && b.w <= envW
    ensures var r := CreatureFrame(b, speed, ms, envW, blocks, true);
            r.vx == speed && r.x == 0.0
  {
    LeftEdgeStops(b, ms, envW, blocks);
  }

  /** The sprites of the creatures of cs, in order. */
  ghost function Views(cs: seq<Creature>): (r: seq<Body>)
    reads set c | c in cs :: c.sprite
    ensures |r| == |cs|
    ensures forall j | 0 <= j < |cs| :: r[j] == cs[j].sprite.Snapshot()
  {
    if cs == [] then [] else Views(cs[..|cs| - 1]) + [cs[|cs| - 1].sprite.Snapshot()]
  }

  /** Creature c, whose sprite was `before`, has had its move of the frame. */
  ghost predicate TookTurn(c: Creature, before: Body, ms: real, envW: real, blocks: seq<Rect>, visible: set<Creature>)
    reads c.sprite
  {
    c.sprite.Snapshot() == CreatureFrame(before, c.speed, ms, envW, blocks, c in visible)
  }

  /** The creature loop over `cs`, whose sprites were `v0` when it started,
      after i turns: the first i creatures have moved, the rest are as they
      were. */
  ghost predicate Progress(cs: seq<Creature>, v0: seq<Body>, i: nat, ms: real, envW: real,
                           blocks: seq<Rect>, visible: set<Creature>)
    reads set c | c in cs :: c.sprite
  {
    && i <= |cs| == |v0|
    && (forall j {:trigger TookTurn(cs[j], v0[j], ms, envW, blocks, visible)} | 0 <= j < i ::
          TookTurn(cs[j], v0[j], ms, envW, blocks, visible))
    && (forall j {:trigger cs[j].sprite.Snapshot()} | i <= j < |cs| :: cs[j].sprite.Snapshot() == v0[j])
  }

  /** No two creatures of the list share a sprite, and none shares the
      player's: NewPlayer and SpawnCreature each make a sprite of their own. */
  ghost predicate Apart(cs: seq<Creature>, p: Player?) {
    && (forall i, j | 0 <= i < j < |cs| :: cs[i].sprite != cs[j].sprite)
    && (p != null ==> forall i | 0 <= i < |cs| :: cs[i].sprite != p.sprite)
  }

  /** KillCreature keeps the sprites apart. */
  lemma ApartRemoveFirst(cs: seq<Creature>, c: Creature, p: Player?)
    requires Apart(cs, p)
    ensures Apart(RemoveFirst(cs, c), p)
  {
    if c in cs {
      var r := RemoveFirst(cs, c);
      forall i, j | 0 <= i < j < |r| ensures r[i].sprite != r[j].sprite {
        var i' := RemoveFirstAt(cs, c, i);
        var j' := RemoveFirstAt(cs, c, j);
      }
      if p != null {
        forall i | 0 <= i < |r| ensures r[i].sprite != p.sprite {
          var i' := RemoveFirstAt(cs, c, i);
        }
      }
    }
  }

  // ---------------------------------------------------------------------
  // The game state

  class State {
    var player: Player?
    const livesbar: LivesBar
    var running: bool
    var score: int
    var nextlife: int
    var boundaries: seq<Rect>
    var creatures: seq<Creature>
    const envW: real
    const envH: real
    const screen: Screen
    var env: Camera
    const playerW: real
    const playerH: real

    ghost predicate Valid()
      reads this, player
    {
      && (player != null ==> player.Valid())
      && Apart(creatures, player)
    }

    ghost predicate Ready()
      reads this, player
    {
      player != null && Valid()
    }

    function Ledger(): Tally
      reads this, livesbar
    {
      Tally(score, nextlife, livesbar.Numbers())
    }

    /** The state before the level loads: an empty lives bar, no player
        yet, the first extra life at 100 points, and the scroll limits Init
        derives from the level and window sizes. */
    constructor (envW: real, envH: real, viewW: real, viewH: real, playerW: real, playerH: real)
      ensures Valid() && player == null && creatures == [] && boundaries == []
      ensures livesbar.Numbers() == Bar(0, 0) && score == 0 && nextlife == 100 && running
      ensures screen == Screen(-envW + viewW, 0.0, -envH + viewH, 0.0, viewW, viewH)
      ensures env == Camera(0.0, 0.0)
    {
      this.envW, this.envH := envW, envH;
      screen := Screen(-envW + viewW, 0.0, -envH + viewH, 0.0, viewW, viewH);
      this.playerW, this.playerH := playerW, playerH;
      livesbar := new LivesBar(0, 0);
      player := null;
      running := true;
      score, nextlife := 0, 100;
      boundaries, creatures := [], [];
      env := Camera(0.0, 0.0);
    }

    /** UpdateSprite: gravity, the edge clamp, the boundary loop, the final
        move and the rounding to whole pixels. */
    method UpdateSprite(sprite: Sprite, ms: real) returns (result: Sides)
      modifies sprite
      ensures Moved(sprite.Snapshot(), result) == SpriteStep(old(sprite.Snapshot()), ms, envW, boundaries)
      ensures sprite.frame == old(sprite.frame)
    {
      var dX, dY;
      dX, dY, result := ResolveMove(sprite, ms);
      if dX != 0.0 || dY != 0.0 {
        sprite.Move(dX, dY);
      }
      sprite.MoveTo(Round(sprite.x), Round(sprite.y));
    }

    /** UpdateSprite up to the final move: gravity, the edge clamp and the
        boundary loop, leaving the displacement still to apply. */
    method ResolveMove(sprite: Sprite, ms: real) returns (dX: real, dY: real, result: Sides)
      modifies sprite
      ensures StepOf(sprite, dX, dY, result) == Resolved(old(sprite.Snapshot()), ms, envW, boundaries)
      ensures sprite.collide == old(sprite.collide)
      ensures sprite.frame == old(sprite.frame)
    {
      ghost var b0 := sprite.Snapshot();
      sprite.vy := sprite.vy + Gravity;
      dX := sprite.vx * ms;
      dY := sprite.vy * ms;
      var b := sprite.Bounds();
      assert StepOf(sprite, dX, dY, NoHit) == Proposed(b0, ms) && b == b0.Bounds();
      dX, result := PassEdges(sprite, b, dX, dY, envW, 0.0);
      assert StepOf(sprite, dX, dY, result) == EdgeClamp(Proposed(b0, ms), b0.Bounds(), envW, 0.0);
      dX, dY, result := PassBoundaries(sprite, dX, dY, result, boundaries);
    }

    /** SpawnCreature(BADGUY, x, y); any other kind leaves the creature nil
        in the source, so callers pass BADGUY only. */
    method SpawnCreature(t: int, x: real, y: real)
      requires t == Badguy
      modifies this
      ensures |creatures| == |old(creatures)| + 1 && creatures[..|old(creatures)|] == old(creatures)
      ensures var c := creatures[|old(creatures)|];
              fresh(c) && fresh(c.sprite) && c.sprite.Snapshot() == Body(x, y - 64.0, 32.0, 64.0, -c.speed, 0.0, true)
      ensures var c := creatures[|old(creatures)|];
              c.speed == 0.1 && c.points == 100 && c.sprite.frame == 1
      ensures player == old(player) && boundaries == old(boundaries) && Ledger() == old(Ledger()) && env == old(env)
    {
      var c := new Creature.Spawned(x, y);
      creatures := creatures + [c];
      assert creatures[..|old(creatures)|] == old(creatures);
    }

    /** KillCreature: splice out the first occurrence of c. */
    method KillCreature(c: Creature)
      modifies this
      ensures creatures == RemoveFirst(old(creatures), c)
      ensures player == old(player) && Ledger() == old(Ledger()) && env == old(env) && running == old(running)
      ensures boundaries == old(boundaries)
    {
      var i := 0;
      while i < |creatures|
        invariant 0 <= i <= |creatures| && creatures == old(creatures)
        invariant c !in creatures[..i]
      {
        if creatures[i] == c {
          IndexOfIsFirst(creatures, c, i);
          creatures := creatures[..i] + creatures[i + 1..];
          return;
        }
        assert creatures[..i + 1] == creatures[..i] + [creatures[i]];
        i := i + 1;
      }
      assert creatures[..i] == creatures;
    }

    method AddLife()
      modifies livesbar
      ensures livesbar.Numbers() == LifeAdded(old(livesbar.Numbers()))
    {
      var lives := livesbar.lives;
      livesbar.SetLives(lives + 1);
    }

    method LoseLife()
      modifies livesbar
      ensures livesbar.Numbers() == LifeLost(old(livesbar.Numbers()))
    {
      var lives := livesbar.lives;
      var used := livesbar.used;
      livesbar.SetLives(lives - 1);
      livesbar.SetUsed(used + 1);
    }

    /** SetScore; the score text is not part of this model. */
    method SetScore(score: int)
      modifies this, livesbar
      ensures Ledger() == Scored(old(Ledger()), score)
      ensures player == old(player) && creatures == old(creatures) && boundaries == old(boundaries)
      ensures env == old(env) && running == old(running)
    {
      this.score := score;
      if this.score >= nextlife {
        AddLife();
        nextlife := nextlife * 2;
      }
    }

    /** The end of Init, once the level is loaded: score 0, one life,
        running. */
    method Begin()
      modifies this, livesbar
      ensures running && player == old(player) && creatures == old(creatures) && boundaries == old(boundaries)
      ensures old(Ledger()) == Tally(0, 100, Bar(0, 0)) ==> Ledger() == Tally(0, 100, Bar(0, 1))
    {
      SetScore(0);
      AddLife();
      running := true;
    }

    /** CheckKeys with the key states passed in. */
    method CheckKeys(keys: Keys, ms: real)
      requires Ready()
      modifies player, player.sprite
      ensures Ready() && player.Snapshot() == AfterKeys(old(player.Snapshot()), keys, ms, player.tuning)
      ensures player.Clock() == old(player.Clock())
    {
      if keys.up && !keys.down {
        player.Jump();
      }
      if keys.left && !keys.right {
        player.Left(ms);
      } else if !keys.left && keys.right {
        player.Right(ms);
      } else {
        player.Slow(ms);
      }
    }

    method UpdateViewport(ms: real)
      requires player != null
      modifies this
      ensures player == old(player) && creatures == old(creatures) && boundaries == old(boundaries)
      ensures env == NextCamera(old(env), player.sprite.Snapshot(), screen, ms)
      ensures Ledger() == old(Ledger()) && running == old(running)
    {
      var r := 0.1 * ms;
      var t := Target(player.sprite.Snapshot(), screen);
      var dy := t.y - env.y;
      var dx := t.x - env.x;
      if ms == 0.0 {
        env := t;
        return;
      }
      var d := Camera(dx / r, dy / r);
      if dy < 200.0 && dy > -200.0 {
        d := d.(y := d.y / 10.0);
      }
      env := Camera(env.x + d.x, env.y + d.y);
    }

    /** HandleAddBlock for one tile: START places the player and is a
        boundary too, FLOOR is a boundary, BADGUY spawns a creature. */
    method HandleAddBlock(t: Tile, now: int)
      requires Valid()
      modifies this
      ensures Valid()
      ensures boundaries == old(boundaries) + TileBoundary(t)
      ensures t.kind == Start ==> && player != null && fresh(player)
                                  && player.sprite.Snapshot() == Body(t.x, t.y - playerH, playerW, playerH, 0.0, 0.0, true)
      ensures t.kind != Start ==> player == old(player)
      ensures t.kind == Badguy ==> && |creatures| == |old(creatures)| + 1 && creatures[..|old(creatures)|] == old(creatures)
                                   && fresh(creatures[|old(creatures)|])
                                   && creatures[|old(creatures)|].sprite.Snapshot() == Body(t.x, t.y - 64.0, 32.0, 64.0, -0.1, 0.0, true)
                                   && creatures[|old(creatures)|].speed == 0.1 && creatures[|old(creatures)|].points == 100
                                   && creatures[|old(creatures)|].sprite.frame == 1
      ensures t.kind != Badguy ==> creatures == old(creatures)
      ensures Ledger() == old(Ledger()) && env == old(env)
    {
      if t.kind == Start {
        player := new Player(t.x, t.y, playerW, playerH, now);
        boundaries := boundaries + [TileRect(t)];
      } else if t.kind == Floor {
        boundaries := boundaries + [TileRect(t)];
      } else if t.kind == Badguy {
        SpawnCreature(t.kind, t.x, t.y);
      }
    }

    /** What loading a map needs to know of one HandleAddBlock call. */
    method PlaceTile(t: Tile, now: int)
      requires Valid()
      modifies this
      ensures Valid()
      ensures boundaries == old(boundaries) + TileBoundary(t)
      ensures |creatures| == |old(creatures)| + (if t.kind == Badguy then 1 else 0)
      ensures Extends(creatures, old(creatures))
    {
      HandleAddBlock(t, now);
    }

    /** The map loader's calls to HandleAddBlock, in map order. */
    method LoadTiles(tiles: seq<Tile>, now: int)
      requires Valid()
      modifies this
      ensures Valid()
      ensures boundaries == old(boundaries) + TileBoundaries(tiles)
      ensures |creatures| == |old(creatures)| + CountBadguys(tiles)
      ensures Extends(creatures, old(creatures))
    {
      ghost var b0, c0 := boundaries, creatures;
      var i := 0;
      while i < |tiles|
        invariant 0 <= i <= |tiles| && Valid()
        invariant boundaries == b0 + TileBoundaries(tiles[..i])
        invariant |creatures| == |c0| + CountBadguys(tiles[..i])
        invariant Extends(creatures, c0)
      {
        ghost var cb := creatures;
        PlaceTile(tiles[i], now);
        LoadStep(tiles, i);
        ExtendsTrans(creatures, cb, c0);
        i := i + 1;
      }
      assert tiles[..i] == tiles;
    }

    /** The player meeting creature c: with contact, a kill shot scores,
        removes the creature and bounces the player; any other contact costs
        a life and throws the player back. No contact changes nothing. */
    twostate predicate Met(c: Creature, kill: bool)
      requires old(player) != null && player == old(player)
      reads this, player, player.sprite, livesbar
    {
      var contact := CollidesWith(old(player.sprite.Bounds()), old(c.sprite.Bounds()));
      && (kill <==> contact && IsKillShot(old(player.sprite.Snapshot()), old(c.sprite.Snapshot())))
      && (kill ==> && creatures == RemoveFirst(old(creatures), c)
                   && Ledger() == Scored(old(Ledger()), old(score) + c.points)
                   && player.Snapshot() == Bounced(old(player.Snapshot()), old(c.sprite.y), player.tuning))
      && (!kill ==> creatures == old(creatures) && score == old(score) && nextlife == old(nextlife))
      && (!contact ==> Ledger() == old(Ledger()) && player.Snapshot() == old(player.Snapshot()))
      && (contact && !kill ==>
            && livesbar.Numbers() == LifeLost(old(livesbar.Numbers()))
            && player.Snapshot() == Rebounded(old(player.Snapshot()), old(c.sprite.x), old(c.sprite.y), player.tuning))
    }

    /** The player meeting one creature, as Met describes. */
    method Interact(c: Creature) returns (kill: bool)
      requires Ready()
      modifies this, player.sprite, livesbar
      ensures Ready() && player == old(player) && boundaries == old(boundaries) && env == old(env)
      ensures running == old(running) && player.Clock() == old(player.Clock())
      ensures Met(c, kill)
    {
      var cx, cy := c.sprite.x, c.sprite.y;
      kill := false;
      if CollidesWith(player.sprite.Bounds(), c.sprite.Bounds()) {
        if IsKillShot(player.sprite.Snapshot(), c.sprite.Snapshot()) {
          kill := true;
          SetScore(score + c.points);
          ApartRemoveFirst(creatures, c, player);
          KillCreature(c);
          player.Bounce(cy);
        } else {
          LoseLife();
          player.Rebound(cx, cy);
        }
      }
    }

    /** One creature's turn: it meets the player, and when it is on screen
        it moves and turns back at a wall, right hits first. */
    method Visit(c: Creature, ms: real, onScreen: bool) returns (kill: bool)
      requires Ready() && c.sprite != player.sprite
      modifies this, player.sprite, livesbar, c.sprite
      ensures Ready() && player == old(player) && boundaries == old(boundaries) && env == old(env)
      ensures running == old(running) && player.Clock() == old(player.Clock())
      ensures Met(c, kill)
      ensures c.sprite.Snapshot() == CreatureFrame(old(c.sprite.Snapshot()), c.speed, ms, envW, boundaries, onScreen)
    {
      kill := Interact(c);
      if onScreen {
        var result := UpdateSprite(c.sprite, ms);
        if result.right {
          c.sprite.vx := -c.speed;
        } else if result.left {
          c.sprite.vx := c.speed;
        }
      }
    }

    /** Turn i of the creature loop over cs. */
    method Turn(cs: seq<Creature>, ghost v0: seq<Body>, i: nat, ms: real, visible: set<Creature>)
      returns (kill: bool, ghost e: Event)
      requires Ready() && i < |cs| && Apart(cs, player)
      requires Progress(cs, v0, i, ms, envW, boundaries, visible)
      modifies this, player.sprite, livesbar, cs[i].sprite
      ensures Ready() && player == old(player) && boundaries == old(boundaries) && env == old(env)
      ensures running == old(running) && player.Clock() == old(player.Clock())
      ensures kill ==> creatures == RemoveFirst(old(creatures), cs[i]) && score == old(score) + cs[i].points
      ensures !kill ==> creatures == old(creatures) && score == old(score)
      ensures (kill <==> e.Stomped?) && (kill ==> e == Stomped(cs[i].points))
      ensures e == Missed <==> !CollidesWith(old(player.sprite.Bounds()), v0[i].Bounds())
      ensures player.sprite.Bounds() == old(player.sprite.Bounds())
      ensures Ledger() == Apply(old(Ledger()), e)
      ensures Progress(cs, v0, i + 1, ms, envW, boundaries, visible)
    {
      assert forall j | 0 <= j < |cs| && j != i :: cs[j].sprite != cs[i].sprite;
      ghost var contact := CollidesWith(player.sprite.Bounds(), cs[i].sprite.Bounds());
      kill := Visit(cs[i], ms, cs[i] in visible);
      e := if kill then Stomped(cs[i].points) else if contact then Struck else Missed;
    }

    /** Turn i together with the loop's account of it: the kills so far,
        the score s0 and the bookkeeping t0 the loop began with, and the
        events so far. */
    method CountedTurn(cs: seq<Creature>, ghost v0: seq<Body>, i: nat, ms: real, visible: set<Creature>,
                       ghost s0: int, ghost t0: Tally, ghost pb: Rect, ghost killed: seq<Creature>, ghost events: seq<Event>)
      returns (ghost killed': seq<Creature>, ghost events': seq<Event>)
      requires Ready() && i < |cs| && Apart(cs, player)
      requires Progress(cs, v0, i, ms, envW, boundaries, visible)
      requires creatures == RemoveEach(cs, killed) && multiset(killed) <= multiset(cs[..i])
      requires score == s0 + Points(killed)
      requires |events| == i && Kills(events) == |killed| && Ledger() == Replay(t0, events)
      requires player.sprite.Bounds() == pb
      requires forall j | 0 <= j < i :: events[j] == Missed <==> !CollidesWith(pb, v0[j].Bounds())
      modifies this, player.sprite, livesbar, cs[i].sprite
      ensures Ready() && player == old(player) && boundaries == old(boundaries) && env == old(env)
      ensures running == old(running) && player.Clock() == old(player.Clock())
      ensures creatures == RemoveEach(cs, killed') && multiset(killed') <= multiset(cs[..i + 1])
      ensures score == s0 + Points(killed')
      ensures |events'| == i + 1 && Kills(events') == |killed'| && Ledger() == Replay(t0, events')
      ensures player.sprite.Bounds() == pb
      ensures forall j | 0 <= j < i + 1 :: events'[j] == Missed <==> !CollidesWith(pb, v0[j].Bounds())
      ensures Progress(cs, v0, i + 1, ms, envW, boundaries, visible)
    {
      var kill, e := Turn(cs, v0, i, ms, visible);
      KilledStep(cs, i, killed);
      ReplayStep(t0, events, e);
      events' := events + [e];
      if kill {
        PointsStep(killed, cs[i]);
        killed' := killed + [cs[i]];
      } else {
        killed' := killed;
      }
    }

    /** The creature loop of a frame. It walks a copy of the creature list
        taken at the start of the frame, so a kill does not disturb the visit
        order, and every creature of that copy takes its turn once. */
    method VisitAll(ms: real, visible: set<Creature>) returns (ghost killed: seq<Creature>, ghost events: seq<Event>)
      requires Ready()
      modifies this, player.sprite, livesbar, set c | c in creatures :: c.sprite
      ensures Ready() && player == old(player) && boundaries == old(boundaries) && env == old(env)
      ensures running == old(running) && player.Clock() == old(player.Clock())
      ensures creatures == RemoveEach(old(creatures), killed)
      ensures multiset(killed) <= multiset(old(creatures))
      ensures score == old(score) + Points(killed)
      ensures |events| == |old(creatures)| && Kills(events) == |killed|
      ensures Ledger() == Replay(old(Ledger()), events)
      ensures forall j | 0 <= j < |old(creatures)| ::
                events[j] == Missed <==> !CollidesWith(old(player.sprite.Bounds()), old(creatures[j].sprite.Bounds()))
      ensures (forall j | 0 <= j < |old(creatures)| :: !CollidesWith(old(player.sprite.Bounds()), old(creatures[j].sprite.Bounds())))
              ==> killed == [] && Ledger() == old(Ledger())
      ensures player.sprite.Bounds() == old(player.sprite.Bounds())
      ensures forall c | c in old(creatures) :: TookTurn(c, old(c.sprite.Snapshot()), ms, envW, boundaries, visible)
    {
      var cs := creatures;
      ghost var v0 := Views(cs);
      killed, events := Walk(cs, v0, ms, visible);
      assert forall j | 0 <= j < |cs| :: v0[j] == old(cs[j].sprite.Snapshot());
      assert forall j | 0 <= j < |cs| :: v0[j].Bounds() == old(cs[j].sprite.Bounds());
      if forall j | 0 <= j < |events| :: events[j] == Missed {
        AllMissed(events);
        ReplayBar(old(Ledger()), events);
      }
    }

    /** The loop of VisitAll over its copy cs of the creature list, whose
        sprites were v0 when the frame began. */
    method Walk(cs: seq<Creature>, ghost v0: seq<Body>, ms: real, visible: set<Creature>)
      returns (ghost killed: seq<Creature>, ghost events: seq<Event>)
      requires Ready() && creatures == cs && Apart(cs, player)
      requires Progress(cs, v0, 0, ms, envW, boundaries, visible)
      modifies this, player.sprite, livesbar, set c | c in cs :: c.sprite
      ensures Ready() && player == old(player) && boundaries == old(boundaries) && env == old(env)
      ensures running == old(running) && player.Clock() == old(player.Clock())
      ensures creatures == RemoveEach(cs, killed)
      ensures multiset(killed) <= multiset(cs)
      ensures score == old(score) + Points(killed)
      ensures |events| == |cs| && Kills(events) == |killed|
      ensures Ledger() == Replay(old(Ledger()), events)
      ensures forall j | 0 <= j < |cs| :: events[j] == Missed <==> !CollidesWith(old(player.sprite.Bounds()), v0[j].Bounds())
      ensures player.sprite.Bounds() == old(player.sprite.Bounds())
      ensures Progress(cs, v0, |cs|, ms, envW, boundaries, visible)
    {
      killed, events := [], [];
      ghost var pb := player.sprite.Bounds();
      var i := 0;
      while i < |cs|
        invariant 0 <= i <= |cs| && Ready() && player == old(player) && boundaries == old(boundaries)
        invariant env == old(env) && running == old(running) && player.Clock() == old(player.Clock())
        invariant creatures == RemoveEach(cs, killed)
        invariant multiset(killed) <= multiset(cs[..i])
        invariant score == old(score) + Points(killed)
        invariant |events| == i && Kills(events) == |killed|
        invariant Ledger() == Replay(old(Ledger()), events)
        invariant player.sprite.Bounds() == pb
        invariant forall j | 0 <= j < i :: events[j] == Missed <==> !CollidesWith(pb, v0[j].Bounds())
        invariant Apart(cs, player)
        invariant Progress(cs, v0, i, ms, envW, boundaries, visible)
      {
        killed, events := CountedTurn(cs, v0, i, ms, visible, old(score), old(Ledger()), pb, killed, events);
        i := i + 1;
      }
      assert cs[..i] == cs;
    }

    /** The player's part of a frame, after the creatures: its animation
        advances, then it moves. `met` is the player as the creatures left
        it. */
    method PlayerTurn(ms: real, now: int) returns (ghost met: Pose)
      requires Ready()
      modifies player, player.sprite
      ensures Ready() && met == old(player.Snapshot())
      ensures player.Snapshot() == Pose(SpriteStep(met.body, ms, envW, boundaries).body, met.state)
      ensures player.Clock() == Advance(old(player.Clock()), met.state, PlayerAnimations, now)
    {
      met := player.Snapshot();
      player.Update(now);
      var _ := UpdateSprite(player.sprite, ms);
    }

    /** One frame: the player meets each creature, visible creatures move,
        then the player animates and moves. Which creatures are on screen is
        passed in. `met` is the player as the creatures left it. */
    method Update(ms: real, now: int, visible: set<Creature>)
      returns (ghost killed: seq<Creature>, ghost events: seq<Event>, ghost met: Pose)
      requires Ready()
      modifies this, player, player.sprite, livesbar, set c | c in creatures :: c.sprite
      ensures Ready() && player == old(player) && boundaries == old(boundaries) && env == old(env)
      ensures running == old(running)
      ensures creatures == RemoveEach(old(creatures), killed)
      ensures multiset(killed) <= multiset(old(creatures))
      ensures score == old(score) + Points(killed)
      ensures |events| == |old(creatures)| && Kills(events) == |killed|
      ensures Ledger() == Replay(old(Ledger()), events)
      ensures forall j | 0 <= j < |old(creatures)| ::
                events[j] == Missed <==> !CollidesWith(old(player.sprite.Bounds()), old(creatures[j].sprite.Bounds()))
      ensures (forall j | 0 <= j < |old(creatures)| :: !CollidesWith(old(player.sprite.Bounds()), old(creatures[j].sprite.Bounds())))
              ==> killed == [] && Ledger() == old(Ledger())
      ensures forall c | c in old(creatures) ::
                c.sprite.Snapshot() == CreatureFrame(old(c.sprite.Snapshot()), c.speed, ms, envW, boundaries, c in visible)
      ensures player.Snapshot() == Pose(SpriteStep(met.body, ms, envW, boundaries).body, old(player.state))
      ensures met.body.Bounds() == old(player.sprite.Bounds())
      ensures player.Clock() == Advance(old(player.Clock()), player.state, PlayerAnimations, now)
    {
      killed, events := VisitAll(ms, visible);
      met := PlayerTurn(ms, now);
    }
  }
}
