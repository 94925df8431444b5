/** The tile collision resolver both revisions run inside UpdateSprite: the
    world-edge clamp, then one pass over the boundaries in load order, each
    boundary testing the horizontal move (with step-up) and then the
    vertical move. */
module Collision {
  import opened Common

  /** The resolver's working values: the sprite's position and velocity,
      what is left of the proposed displacement, and the hit bits so far. */
  datatype Step = Step(x: real, y: real, vx: real, vy: real, dX: real, dY: real, result: Sides)

  function Box(s: Step, w: real, h: real): Rect {
    Rect(s.x, s.y, w, h)
  }

  /** Every side set in a is still set in b. */
  predicate Keeps(a: Sides, b: Sides) {
    (a.left ==> b.left) && (a.right ==> b.right) && (a.top ==> b.top) && (a.bottom ==> b.bottom)
  }

  /** a and b differ at most in the left and right sides. */
  predicate SameVertical(a: Sides, b: Sides) {
    a.top == b.top && a.bottom == b.bottom
  }

  /** a and b differ at most in the top and bottom sides. */
  predicate SameHorizontal(a: Sides, b: Sides) {
    a.left == b.left && a.right == b.right
  }

  /** The world-edge clamp. `b` is the sprite's rectangle before any move;
      `nudge` is how far the sprite is pushed back inside (1 in the later
      revision, 0 in the earlier one). */
  function EdgeClamp(s: Step, b: Rect, envW: real, nudge: real): (r: Step)
    ensures r.y == s.y && r.vy == s.vy && r.dY == s.dY
    ensures Keeps(s.result, r.result) && SameVertical(s.result, r.result)
    ensures b.x + s.dX < 0.0 ==> r.result.left && r.vx == 0.0 && r.dX == 0.0
    ensures b.x + b.w + (if b.x + s.dX < 0.0 then 0.0 else s.dX) > envW ==> r.result.right && r.vx == 0.0 && r.dX == 0.0
    ensures r.dX != 0.0 ==> r == s
    // a sprite inside the level never proposes a move that leaves it
    ensures 0.0 <= b.x && b.x + b.w <= envW ==> 0.0 <= b.x + r.dX && b.x + b.w + r.dX <= envW
    ensures r.x == s.x + (if b.x + s.dX < 0.0 then nudge else 0.0)
                      - (if b.x + b.w + (if b.x + s.dX < 0.0 then 0.0 else s.dX) > envW then nudge else 0.0)
  {
    var s1 := if b.x + s.dX < 0.0 then s.(result := s.result.(left := true), vx := 0.0, x := s.x + nudge, dX := 0.0) else s;
    if b.x + b.w + s1.dX > envW then s1.(result := s1.result.(right := true), vx := 0.0, x := s1.x - nudge, dX := 0.0) else s1
  }

  /** One boundary, horizontal half: a blocked move first tries to climb the
      block; failing that the sprite is snapped flush against its near face. */
  function Horizontal(s: Step, w: real, h: real, block: Rect): (r: Step)
    ensures r.vy == s.vy && r.dY == s.dY
    ensures Keeps(s.result, r.result) && SameVertical(s.result, r.result)
    ensures s.dX == 0.0 || TestMove(Box(s, w, h), s.dX, 0.0, block) ==> r == s
    // step-up: the sprite rises by the block's height and keeps going, with no hit bit
    ensures s.dX != 0.0 && !TestMove(Box(s, w, h), s.dX, 0.0, block) && TestMove(Box(s, w, h), s.dX, -block.h, block)
            ==> r == s.(y := s.y - block.h)
    // no room to climb: flush against the block, horizontal motion stopped
    ensures s.dX != 0.0 && !TestMove(Box(s, w, h), s.dX, 0.0, block) && !TestMove(Box(s, w, h), s.dX, -block.h, block)
            ==> && r.vx == 0.0 && r.dX == 0.0 && r.y == s.y
                && !Overlaps(Box(r, w, h), block)
                && (s.dX < 0.0 ==> r.x == block.x + block.w && r.result == s.result.(left := true))
                && (s.dX > 0.0 ==> r.x + w == block.x && r.result == s.result.(right := true))
  {
    if s.dX != 0.0 && !TestMove(Box(s, w, h), s.dX, 0.0, block) then
      if TestMove(Box(s, w, h), s.dX, -block.h, block) then
        s.(y := s.y - block.h)
      else if s.dX < 0.0 then
        s.(x := block.x + block.w, result := s.result.(left := true), vx := 0.0, dX := 0.0)
      else
        s.(x := block.x - w, result := s.result.(right := true), vx := 0.0, dX := 0.0)
    else
      s
  }

  /** One boundary, vertical half: a blocked move snaps the sprite flush
      against the block's bottom or top face. */
  function Vertical(s: Step, w: real, h: real, block: Rect): (r: Step)
    ensures r.x == s.x && r.vx == s.vx && r.dX == s.dX
    ensures Keeps(s.result, r.result) && SameHorizontal(s.result, r.result)
    ensures s.dY == 0.0 || TestMove(Box(s, w, h), 0.0, s.dY, block) ==> r == s
    ensures s.dY != 0.0 && !TestMove(Box(s, w, h), 0.0, s.dY, block)
            ==> && r.vy == 0.0 && r.dY == 0.0
                && !Overlaps(Box(r, w, h), block)
                && (s.dY < 0.0 ==> r.y == block.y + block.h && r.result == s.result.(top := true))
                && (s.dY > 0.0 ==> r.y + h == block.y && r.result == s.result.(bottom := true))
  {
    if s.dY != 0.0 && !TestMove(Box(s, w, h), 0.0, s.dY, block) then
      if s.dY < 0.0 then
        s.(y := block.y + block.h, result := s.result.(top := true), vy := 0.0, dY := 0.0)
      else
        s.(y := block.y - h, result := s.result.(bottom := true), vy := 0.0, dY := 0.0)
    else
      s
  }

  /** The loop body for one boundary. A block that neither half of the
      move would enter, each tested from where the sprite stands, changes
      nothing; otherwise a displacement and a speed are kept or zeroed, and
      side bits are only added. */
  function BlockStep(s: Step, w: real, h: real, block: Rect): (r: Step)
    ensures TestMove(Box(s, w, h), s.dX, 0.0, block) && TestMove(Box(s, w, h), 0.0, s.dY, block) ==> r == s
    ensures (r.dX == s.dX && r.vx == s.vx) || (r.dX == 0.0 && r.vx == 0.0)
    ensures (r.dY == s.dY && r.vy == s.vy) || (r.dY == 0.0 && r.vy == 0.0)
    ensures Keeps(s.result, r.result)
  {
    Vertical(Horizontal(s, w, h, block), w, h, block)
  }

  /** The loop over the boundaries, in order. No boundaries leave the step
      as it was; otherwise each displacement ends either as proposed or
      zeroed, with its speed, and side bits are only added. */
  function Resolve(s: Step, w: real, h: real, blocks: seq<Rect>): (r: Step)
    ensures blocks == [] ==> r == s
    ensures (r.dX == s.dX && r.vx == s.vx) || (r.dX == 0.0 && r.vx == 0.0)
    ensures (r.dY == s.dY && r.vy == s.vy) || (r.dY == 0.0 && r.vy == 0.0)
    decreases |blocks|
  {
    if |blocks| == 0 then s else Resolve(BlockStep(s, w, h, blocks[0]), w, h, blocks[1..])
  }

  /** Each half of the move is tested from the sprite's starting place, so
      a diagonal move can end inside a block that neither half enters: a
      10 by 10 sprite at the origin moving by (15, 15) passes the block at
      (10, 10) untouched and comes to rest inside it. */
  lemma CornerTunnels()
    ensures var r := Resolve(Step(0.0, 0.0, 0.3, 0.3, 15.0, 15.0, NoHit), 10.0, 10.0, [Rect(10.0, 10.0, 32.0, 32.0)]);
            && r.x + r.dX == 15.0 && r.y + r.dY == 15.0 && r.result == NoHit
            && Overlaps(Rect(r.x + r.dX, r.y + r.dY, 10.0, 10.0), Rect(10.0, 10.0, 32.0, 32.0))
  {
    var s := Step(0.0, 0.0, 0.3, 0.3, 15.0, 15.0, NoHit);
    var block := Rect(10.0, 10.0, 32.0, 32.0);
    assert BlockStep(s, 10.0, 10.0, block) == s;
    assert [block][1..] == [];
  }

  /** The loop never clears a side bit. */
  lemma {:induction false} ResolveAddsOnlySides(s: Step, w: real, h: real, blocks: seq<Rect>)
    ensures Keeps(s.result, Resolve(s, w, h, blocks).result)
    decreases |blocks|
  {
    if |blocks| > 0 {
      ResolveAddsOnlySides(BlockStep(s, w, h, blocks[0]), w, h, blocks[1..]);
    }
  }

  /** Once the horizontal displacement is zero no boundary touches x, vx or
      the left/right bits again. */
  lemma {:induction false} ResolveKeepsStoppedX(s: Step, w: real, h: real, blocks: seq<Rect>)
    requires s.dX == 0.0
    ensures var r := Resolve(s, w, h, blocks);
      r.dX == 0.0 && r.x == s.x && r.vx == s.vx && SameHorizontal(s.result, r.result)
    decreases |blocks|
  {
    if |blocks| > 0 {
      ResolveKeepsStoppedX(BlockStep(s, w, h, blocks[0]), w, h, blocks[1..]);
    }
  }

  /** Once the vertical displacement is zero no boundary touches vy or the
      top/bottom bits again (y may still rise by a step-up). */
  lemma {:induction false} ResolveKeepsStoppedY(s: Step, w: real, h: real, blocks: seq<Rect>)
    requires s.dY == 0.0
    ensures var r := Resolve(s, w, h, blocks);
      r.dY == 0.0 && r.vy == s.vy && SameVertical(s.result, r.result)
    decreases |blocks|
  {
    if |blocks| > 0 {
      ResolveKeepsStoppedY(BlockStep(s, w, h, blocks[0]), w, h, blocks[1..]);
    }
  }

  /** A top or bottom hit always leaves the sprite with no vertical velocity
      and no vertical displacement left. */
  lemma {:induction false} ResolveVerticalHitStops(s: Step, w: real, h: real, blocks: seq<Rect>)
    requires !SameVertical(s.result, Resolve(s, w, h, blocks).result)
    ensures Resolve(s, w, h, blocks).vy == 0.0 && Resolve(s, w, h, blocks).dY == 0.0
    decreases |blocks|
  {
    var t := BlockStep(s, w, h, blocks[0]);
    if !SameVertical(s.result, t.result) {
      ResolveKeepsStoppedY(t, w, h, blocks[1..]);
    } else {
      ResolveVerticalHitStops(t, w, h, blocks[1..]);
    }
  }

  /** A left or right hit from a boundary always leaves the sprite with no
      horizontal velocity and no horizontal displacement left. */
  lemma {:induction false} ResolveHorizontalHitStops(s: Step, w: real, h: real, blocks: seq<Rect>)
    requires !SameHorizontal(s.result, Resolve(s, w, h, blocks).result)
    ensures Resolve(s, w, h, blocks).vx == 0.0 && Resolve(s, w, h, blocks).dX == 0.0
    decreases |blocks|
  {
    var t := BlockStep(s, w, h, blocks[0]);
    if !SameHorizontal(s.result, t.result) {
      ResolveKeepsStoppedX(t, w, h, blocks[1..]);
    } else {
      ResolveHorizontalHitStops(t, w, h, blocks[1..]);
    }
  }

  /** The sprite's resolver values, with the displacement and side bits
      that UpdateSprite keeps in locals. */
  function StepOf(sprite: Sprite, dX: real, dY: real, result: Sides): Step
    reads sprite
  {
    Step(sprite.x, sprite.y, sprite.vx, sprite.vy, dX, dY, result)
  }

  /** The world-edge clamp of UpdateSprite, on the sprite itself; `b` is its
      rectangle before the clamp and `nudge` how far it is pushed back in. */
  method PassEdges(sprite: Sprite, b: Rect, dX: real, dY: real, envW: real, nudge: real) returns (dX': real, result: Sides)
    modifies sprite
    ensures StepOf(sprite, dX', dY, result) == EdgeClamp(old(StepOf(sprite, dX, dY, NoHit)), b, envW, nudge)
    ensures sprite.collide == old(sprite.collide) && sprite.frame == old(sprite.frame)
  {
    dX' := dX;
    result := NoHit;
    if b.x + dX' < 0.0 {
      result := result.(left := true);
      sprite.vx := 0.0;
      sprite.Move(nudge, 0.0);
      dX' := 0.0;
    }
    if b.x + b.w + dX' > envW {
      result := result.(right := true);
      sprite.vx := 0.0;
      sprite.Move(-nudge, 0.0);
      dX' := 0.0;
    }
  }

  /** The horizontal half of the boundary loop body, on the sprite itself. */
  method PassHorizontal(sprite: Sprite, dX: real, dY: real, result: Sides, block: Rect)
    returns (dX': real, result': Sides)
    modifies sprite
    ensures StepOf(sprite, dX', dY, result') == Horizontal(old(StepOf(sprite, dX, dY, result)), sprite.w, sprite.h, block)
    ensures sprite.collide == old(sprite.collide) && sprite.frame == old(sprite.frame)
  {
    dX', result' := dX, result;
    if dX != 0.0 && !TestMove(sprite.Bounds(), dX, 0.0, block) {
      if TestMove(sprite.Bounds(), dX, -block.h, block) {
        // running up a small bump
        sprite.Move(0.0, -block.h);
      } else {
        if dX < 0.0 {
          sprite.MoveTo(block.x + block.w, sprite.y);
          result' := result'.(left := true);
        } else {
          sprite.MoveTo(block.x - sprite.w, sprite.y);
          result' := result'.(right := true);
        }
        sprite.vx := 0.0;
        dX' := 0.0;
      }
    }
  }

  /** The vertical half of the boundary loop body. */
  method PassVertical(sprite: Sprite, dX: real, dY: real, result: Sides, block: Rect)
    returns (dY': real, result': Sides)
    modifies sprite
    ensures StepOf(sprite, dX, dY', result') == Vertical(old(StepOf(sprite, dX, dY, result)), sprite.w, sprite.h, block)
    ensures sprite.collide == old(sprite.collide) && sprite.frame == old(sprite.frame)
  {
    dY', result' := dY, result;
    if dY != 0.0 && !TestMove(sprite.Bounds(), 0.0, dY, block) {
      if dY < 0.0 {
        sprite.MoveTo(sprite.x, block.y + block.h);
        result' := result'.(top := true);
      } else {
        sprite.MoveTo(sprite.x, block.y - sprite.h);
        result' := result'.(bottom := true);
      }
      sprite.vy := 0.0;
      dY' := 0.0;
    }
  }
  /** The boundary loop of UpdateSprite: every block in order, horizontal
      pass then vertical pass, leaves the sprite where Resolve says. */
  method PassBoundaries(sprite: Sprite, dX: real, dY: real, result: Sides, blocks: seq<Rect>)
    returns (dX': real, dY': real, result': Sides)
    modifies sprite
    ensures StepOf(sprite, dX', dY', result') == Resolve(old(StepOf(sprite, dX, dY, result)), sprite.w, sprite.h, blocks)
    ensures sprite.collide == old(sprite.collide) && sprite.frame == old(sprite.frame)
  {
    ghost var s0 := StepOf(sprite, dX, dY, result);
    dX', dY', result' := dX, dY, result;
    var i := 0;
    while i < |blocks|
      invariant 0 <= i <= |blocks|
      invariant Resolve(StepOf(sprite, dX', dY', result'), sprite.w, sprite.h, blocks[i..])
                == Resolve(s0, sprite.w, sprite.h, blocks)
      invariant sprite.collide == old(sprite.collide) && sprite.frame == old(sprite.frame)
    {
      var block := blocks[i];
      ghost var before := StepOf(sprite, dX', dY', result');
      assert blocks[i..] == [block] + blocks[i + 1..];
      dX', result' := PassHorizontal(sprite, dX', dY', result', block);
      dY', result' := PassVertical(sprite, dX', dY', result', block);
      assert StepOf(sprite, dX', dY', result') == BlockStep(before, sprite.w, sprite.h, block);
      i := i + 1;
    }
    assert blocks[i..] == [];
  }

}
