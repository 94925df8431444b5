/** Time-based frame advance, the same in the Player and Creature Update
    methods of both revisions: each state mask has an animation (frame
    indices and a per-frame duration); the frame moves on when its time is
    up or the state changed. */
module Animation {
  import opened Common

  datatype Anim = Anim(frames: seq<int>, duration: int)

  /** Every animation of the table has at least one frame, so the modulo
      lookup never divides by zero. */
  predicate Playable(table: map<Flags, Anim>) {
    forall k :: k in table ==> |table[k].frames| > 0
  }

  /** An entity's animation bookkeeping: the frame on its sprite, when the
      next frame is due, the frame counter and the state last animated. */
  datatype Ticker = Ticker(frame: int, nextFrame: int, frameCounter: int, lastState: Flags)

  /** The frame advance: on a tick (the deadline has passed or the state
      changed) the state's animation, if it has one, sets the frame and the
      next deadline; the counter moves on modulo 1000 either way. */
  function Advance(t: Ticker, state: Flags, table: map<Flags, Anim>, now: int): (r: Ticker)
    requires Playable(table) && t.frameCounter >= 0
    ensures 0 <= r.frameCounter && (t.frameCounter < 1000 ==> r.frameCounter < 1000)
    ensures !(now > t.nextFrame || t.lastState != state) ==> r == t
    ensures now > t.nextFrame || t.lastState != state ==>
              && r.lastState == state
              && r.frameCounter == (t.frameCounter + 1) % 1000
              && (state in table ==>
                    && r.frame == table[state].frames[t.frameCounter % |table[state].frames|]
                    && r.frame in table[state].frames
                    && r.nextFrame == now + table[state].duration)
    // a state without an animation leaves the shown frame alone
    ensures state !in table ==> r.frame == t.frame && r.nextFrame == t.nextFrame
  {
    if now > t.nextFrame || t.lastState != state then
      var shown :=
        if state in table then
          var a := table[state];
          t.(frame := a.frames[t.frameCounter % |a.frames|], nextFrame := now + a.duration)
        else t;
      shown.(frameCounter := (t.frameCounter + 1) % 1000, lastState := state)
    else
      t
  }

  /** Right after a state change the next frame is shown at once, whatever
      the deadline said. */
  lemma ChangeIsImmediate(t: Ticker, state: Flags, table: map<Flags, Anim>, now: int)
    requires Playable(table) && t.frameCounter >= 0
    requires t.lastState != state && state in table
    ensures Advance(t, state, table, now).frame == table[state].frames[t.frameCounter % |table[state].frames|]
  {
  }

  /** The player's animation table; NewPlayer builds the same one in both
      revisions, keyed by the exact state mask. */
  const PlayerAnimations: map<Flags, Anim> := map[
    Flags(true, false, true, false, false) := Anim([4, 5], 400),   // STOPPED | LEFT  (5)
    Flags(false, true, true, false, false) := Anim([0, 1], 400),   // STOPPED | RIGHT (6)
    Flags(true, false, false, true, false) := Anim([3, 5], 80),    // WALKING | LEFT  (9)
    Flags(false, true, false, true, false) := Anim([0, 2], 80),    // WALKING | RIGHT (10)
    Flags(true, false, false, false, true) := Anim([5], 80),       // JUMPING | LEFT  (17)
    Flags(false, true, false, false, true) := Anim([0], 80)        // JUMPING | RIGHT (18)
  ]

  lemma PlayerAnimationsPlayable()
    ensures Playable(PlayerAnimations)
  {
  }
}
