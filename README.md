# TDoS platformer core in Dafny

This project models the per-frame simulation core of the TDoS side-scrolling
platformer. The repository holds two revisions of the game's main loop:
`main.go` (the earlier one) and `src/main.go` (the later one). Both are
modelled, each in its own pair of modules, over shared modules for the common
parts.

- `Common`: the float helpers (`Min`, `Max`, `Abs`, `Round`), rectangles and
  the engine's overlap tests, the engine sprite (a class whose
  position, velocity and frame the game updates in place), the hit-side and
  state bitmasks (as boolean records with their integer encoding), the tile
  kinds placed by the map loader, and the creature-list splice.
- `Collision`: the tile resolver inside `UpdateSprite`. It is a fold over the
  boundaries in load order. Each boundary tests the horizontal move (with
  step-up onto a bump) and then the vertical move. Before the fold, the
  world-edge clamp runs. The module also holds the imperative passes that
  `UpdateSprite` runs on the sprite itself.
- `Animation`: the time-based frame advance shared by players and creatures,
  and the player's animation table.
- `LateActors` / `LateState` (`src/main.go`):
  - the capped counter behind the lives and health bars;
  - the player's state machine, with invincibility, death and respawn;
  - the mushroom patrol;
  - the `State` class: `UpdateSprite`, the camera, health, lives, score and
    kill shots, the level load, and one frame of `Update`.
- `EarlyActors` / `EarlyState` (`main.go`): the same for the earlier
  revision. There the lives bar is a used/left pair, gravity is per frame,
  every sprite collides, positions are rounded after each move, and the
  camera is not rounded.
- `Revisions`: how the two revisions differ on the same inputs.

What mutates in place stays imperative: the sprites, the players, the
creatures, the lives bars and the game state are classes, and their
methods have `modifies` clauses. Every method states its new state through
a function on values (`Snapshot()`, `Clock()`, `Numbers()`, `Ledger()`,
`Health()`), and the lemmas prove what the game promises about those
functions. The boundary loop of `UpdateSprite` (`Collision.PassBoundaries`,
shared by both revisions), `KillCreature`, the map load and `Update` carry
their own invariants. The boundary loop's invariant ties each boundary step
to the fold `Resolve`.

Modelling choices:
- Go's `float32` is modelled as `real`.
- The wall clock (`time.Now()`) becomes an integer `now` in milliseconds,
  passed in.
- Which keys are down and which creatures are on screen are passed in.
- The engine's sprite calls are assumed to behave as follows. `TestMove` is
  true when the moved rectangle does not overlap the block (touching faces
  do not overlap). `CollidesWith` is rectangle overlap. The level's
  `RelativeBounds` of the player starts at `(-x, -y)`.

## Model

| member | source | states |
|---|---|---|
| `Common.Min` | src/main.go:46-51 | the result is one of the two arguments and no greater than either (both revisions) |
| `Common.Max` | src/main.go:53-58 | the result is one of the two arguments and no smaller than either |
| `Common.Abs` | src/main.go:60-65 | the result is non-negative and equals a or -a |
| `Common.Clamp` | src/main.go:690-691 | `Min(Max(v, lo), hi)` lies in [lo, hi] when lo <= hi, is v inside the range, and is lo or hi outside it |
| `Common.Sides.Mask` | src/main.go:27-32 | the HITLEFT/HITRIGHT/HITTOP/HITBOTTOM flags are bits 1, 2, 4 and 8 of a value below 16 |
| `Common.SidesMaskInjective` | src/main.go:27-32 | two hit results with the same integer mask are the same result |
| `Common.Flags.Mask` | src/main.go:153-159 | the five player state bits are bits 1, 2, 4, 8 and 16 of a value below 32 |
| `Common.FlagsMaskInjective` | src/main.go:153-159 | FACING_LEFT, FACING_RIGHT, PLAYER_STOPPED, PLAYER_WALKING and PLAYER_JUMPING (bits 1 to 16) lose nothing when packed into one integer |
| `Common.RoundAsWritten` | src/main.go:67-74 | Round as written: a whole number; within half a pixel for a > 0, and between 1.5 and 0.5 below a for a <= 0 (also main.go:62-69) |
| `Common.RoundAsWrittenShiftsNonPositive` | src/main.go:67-74 | as written, Round moves every non-positive whole number down by one (Round(0) = -1) |
| `Common.Round` | src/main.go:67-74 | corrected Round: a whole number within half a pixel of a, and whole numbers unchanged |
| `Common.RoundIsOdd` | src/main.go:67-74 | corrected Round is symmetric: Round(-a) = -Round(a) |
| `Common.RoundStaysInBounds` | src/main.go:67-74 | the corrected Round keeps a value inside whole-pixel limits (the Round as written does not: see Findings) |
| `Common.SharedStepBetween` | src/main.go:694 | a damped camera step of a 1/r share of the gap, r >= 1, lands between the camera and its target |
| `Common.TileBoundaries` | src/main.go:718-731 | a map adds at most one boundary per tile |
| `Common.TileBoundariesExact` | src/main.go:718-731 | the boundaries a map adds are exactly the rectangles of its FLOOR and START tiles |
| `Common.CountBadguys` | src/main.go:718-731 | a map spawns at most one creature per tile |
| `Common.NoBadguys` | src/main.go:718-731 | the number of creatures a map spawns is zero exactly when it has no BADGUY tile |
| `Common.LoadStep` | src/main.go:718-731 | loading the first i+1 tiles adds tile i's boundary and creature to what the first i added |
| `Common.BoundariesAppend` | src/main.go:718-731 | loading one more tile adds its boundary, if any, at the end |
| `Common.BadguysAppend` | src/main.go:718-731 | loading one more tile adds one creature exactly when it is a BADGUY tile |
| `Common.IndexOf` | src/main.go:458-468 | the position KillCreature's loop stops at holds c, and no earlier position does |
| `Common.IndexOfIsFirst` | src/main.go:458-468 | the first position holding c is the one IndexOf reports |
| `Common.RemoveFirst` | src/main.go:458-468 | KillCreature's splice drops the first occurrence of c and nothing else, and leaves a list without c unchanged |
| `Common.RemoveFirstMultiset` | src/main.go:458-468 | the splice removes exactly one copy of c when there is one |
| `Common.RemoveEach` | src/main.go:618-683 | the creatures left after a frame's kills all come from the creatures before it, and there are no more of them |
| `Common.RemoveFirstAt` | src/main.go:458-468 | each element of the spliced list is an element of the old one, at the same index before the removed one and one further on after it |
| `Common.KilledStep` | src/main.go:622-662 | recording one more kill at turn i keeps the kills inside what has been walked and removes it last |
| `Common.RangeVisitsAsWritten` | src/main.go:622-662 | Go's range over the spliced backing array: it takes as many turns as the slice had when it started, and with no kill it is the plain walk (also main.go:463-484) |
| `Common.RangeSkipsAfterKill` | src/main.go:622-662 | as written, ranging over [1, 2, 3] while killing 1 visits 1, 3, 3: creature 2 is skipped and 3 is visited twice |
| `Common.RangeVisitsOverCopy` | src/main.go:622-662 | ranging over a copy taken at the start of the frame visits each creature once, in order |
| `Common.Sprite.Move` | src/main.go:603 | the engine's Move shifts the sprite by (dx, dy) and changes nothing else, the frame included |
| `Common.Sprite.MoveTo` | src/main.go:579-582 | the engine's MoveTo puts the sprite at (nx, ny) and changes nothing else |
| `Common.Sprite.SetFrame` | src/main.go:227 | the engine's SetFrame changes the frame shown and nothing else |
| `Collision.EdgeClamp` | src/main.go:554-570 | the world-edge clamp reports a left or right hit and zeroes the horizontal speed and move when the sprite would leave the level; otherwise it changes nothing (main.go:395-409 has no nudge) |
| `Collision.Horizontal` | src/main.go:573-588 | the horizontal test against one boundary: a blocked move climbs a bump when the block's height clears it, otherwise snaps to the block's face, reports the side and stops |
| `Collision.Vertical` | src/main.go:589-599 | the vertical test against one boundary: a blocked move snaps to the block's top or bottom face, reports the side and stops |
| `Collision.ResolveAddsOnlySides` | src/main.go:572-600 | the boundary loop only adds hit sides and never clears one |
| `Collision.ResolveKeepsStoppedX` | src/main.go:573-588 | once the horizontal move is zero, no boundary changes x, vx or the left/right bits |
| `Collision.ResolveKeepsStoppedY` | src/main.go:589-599 | once the vertical move is zero, no boundary changes y, vy or the top/bottom bits |
| `Collision.ResolveVerticalHitStops` | src/main.go:589-599 | whenever the loop reports a new top or bottom hit, the vertical speed and move end at zero |
| `Collision.ResolveHorizontalHitStops` | src/main.go:573-588 | whenever the loop reports a new left or right hit, the horizontal speed and move end at zero |
| `Collision.BlockStep` | src/main.go:573-599 | a boundary that neither half of the move enters, each tested from where the sprite stands, changes nothing; otherwise each displacement and its speed are kept or zeroed, and hit sides are only added |
| `Collision.Resolve` | src/main.go:572-600 | no boundaries leave the step as it was; otherwise each displacement ends as proposed or zeroed together with its speed |
| `Collision.CornerTunnels` | src/main.go:572-600 | a diagonal move that neither half-test stops can end inside a block: (0, 0) moved by (15, 15) passes the block at (10, 10) and rests inside it with no hit |
| `Collision.PassEdges` | src/main.go:554-570 | the edge clamp applied to the sprite itself leaves it where EdgeClamp says |
| `Collision.PassBoundaries` | src/main.go:572-600 | the boundary loop applied to the sprite leaves it where Resolve says, block by block in order |
| `Collision.PassHorizontal` | src/main.go:573-588 | the horizontal half of the loop body applied to the sprite leaves it where Horizontal says |
| `Collision.PassVertical` | src/main.go:589-599 | the vertical half of the loop body applied to the sprite leaves it where Vertical says |
| `Animation.Advance` | src/main.go:322-330 | on a deadline or a state change the state's animation shows frames[counter % len], sets the next deadline to now plus its duration, and the counter moves on modulo 1000; a state without an animation keeps the frame; nothing changes otherwise |
| `Animation.ChangeIsImmediate` | src/main.go:322-326 | a state change shows the new animation's frame at once, whatever the deadline says |
| `Animation.PlayerAnimationsPlayable` | src/main.go:195-229 | every animation of NewPlayer's table has at least one frame, so the modulo lookup is defined |
| `LateActors.AfterSetAvailable` | src/main.go:97-107 | LivesBar.SetAvailable clamps the new value into [0, max] and keeps max |
| `LateActors.AfterSetMax` | src/main.go:113-123 | LivesBar.SetMax clamps the cap at 0 and lowers the available count to the new cap when needed |
| `LateActors.LivesBar.constructor` | src/main.go:85-95 | NewLivesBar holds the given available and maximum counts |
| `LateActors.LivesBar.SetAvailable` | src/main.go:97-107 | stores AfterSetAvailable and returns the value stored |
| `LateActors.LivesBar.SetMax` | src/main.go:113-123 | stores AfterSetMax and returns the cap stored |
| `LateActors.Jumped` | src/main.go:253-259 | Jump takes off (vy = -JumpSpeed, only JUMPING of the motion bits) unless already jumping, in which case nothing changes |
| `LateActors.MovedLeft` | src/main.go:261-266 | Left accelerates leftward by Acceleration*ms; a speed past -RunSpeed is held at -RunSpeed and one short of -WalkSpeed is raised to -WalkSpeed, any other is kept; the player faces left and walks, and keeps JUMPING |
| `LateActors.MovedRight` | src/main.go:268-273 | Right mirrors Left: the new speed is held at RunSpeed above it and raised to WalkSpeed below it, and kept in between |
| `LateActors.Slowed` | src/main.go:275-287 | Slow brakes by Deceleration*ms toward zero; within one step of zero it stops and sets STOPPED in place of WALKING |
| `LateActors.SlowNeverSpeedsUp` | src/main.go:275-287 | braking never increases the horizontal speed |
| `LateActors.Rebounded` | src/main.go:289-302 | Rebound throws the player away from the creature at RunSpeed and JumpSpeed (>= comparisons) and sets JUMPING |
| `LateActors.Bounced` | src/main.go:304-316 | Bounce launches the player vertically away from the creature, moves it two pixels that way, stops it horizontally and sets JUMPING |
| `LateActors.DyingPlayerSteers` | src/main.go:985-987 | the keys still act on a dying player: Left alone turns it left and drives it at walking speed or more, with Collide off |
| `LateActors.Died` | src/main.go:247-251 | Die turns Collide off, zeroes the x speed and flies up at JumpSpeed, keeping the place, the size and the state bits |
| `LateActors.Landed` | src/main.go:319-321 | a bottom hit clears JUMPING and nothing else |
| `LateActors.AfterKeys` | src/main.go:517-532 | CheckKeys: Up without Down jumps; then Left or Right alone moves, and anything else brakes |
| `LateActors.FacingStaysExclusive` | src/main.go:253-316 | exactly one facing bit survives every player transition |
| `LateActors.MotionBitsNotExclusive` | src/main.go:253-266 | the motion group is not exclusive: a jump then Left gives WALKING and JUMPING together |
| `LateActors.Player.constructor` | src/main.go:195-229 | NewPlayer stands the player on the START tile, stopped and facing right, vulnerable, remembering the tile as its respawn point |
| `LateActors.Player.SetInvincible` | src/main.go:235-238 | opens an invincibility window of 200 ms from now |
| `LateActors.Player.Respawn` | src/main.go:240-245 | back to the start point, still and colliding |
| `LateActors.Player.Die` | src/main.go:247-251 | the new pose is Died of the old one and the frame is kept |
| `LateActors.Player.Jump` | src/main.go:253-259 | the player's new pose is Jumped of the old one; nothing else changes |
| `LateActors.Player.Left` | src/main.go:261-266 | the new pose is MovedLeft of the old one |
| `LateActors.Player.Right` | src/main.go:268-273 | the new pose is MovedRight of the old one |
| `LateActors.Player.Slow` | src/main.go:275-287 | the new pose is Slowed of the old one |
| `LateActors.Player.Rebound` | src/main.go:289-302 | the new pose is Rebounded of the old one |
| `LateActors.Player.Bounce` | src/main.go:304-316 | the new pose is Bounced of the old one |
| `LateActors.Player.Update` | src/main.go:318-334 | landing clears JUMPING, the animation advances, and the invincibility window closes once now passes its end |
| `LateActors.CreatureAnimationsPlayable` | src/main.go:411-421 | the mushroom's animations all have frames |
| `LateActors.Patrolled` | src/main.go:391-408 | Creature.Update steering: a right hit turns left at full speed, a left hit turns right, otherwise the speed is damped by 0.9 toward the patrol speed |
| `LateActors.DampingConverges` | src/main.go:401-407 | after n frames without hits the gap between the speed and the patrol speed is the first gap times 0.9^n |
| `LateActors.Pow9` | src/main.go:401-407 | 0.9^n lies in (0, 1] |
| `LateActors.Creature.Mushroom` | src/main.go:411-421 | NewMushroom stands on its tile, facing and walking left at 0.05, worth 100 points |
| `LateActors.Creature.Update` | src/main.go:381-409 | the animation advances and the velocity and facing follow Patrolled |
| `LateState.SpriteStep` | src/main.go:547-607 | UpdateSprite keeps the sprite's size and Collide flag |
| `LateState.HitsStopMotion` | src/main.go:547-607 | every side UpdateSprite reports stopped the motion across it |
| `LateState.NoCollideIgnoresBoundaries` | src/main.go:571-601 | with Collide off no boundary is consulted, so the outcome equals that in an empty level and the sprite simply falls |
| `LateState.FreeFlight` | src/main.go:547-607 | a sprite moving within the level with nothing in the way moves its full displacement and reports no hit |
| `LateState.Proposed` | src/main.go:548-551 | gravity adds 0.005 per millisecond of frame time to the vertical speed, and each displacement is its speed times ms; nothing has been hit yet |
| `LateState.IsKillShot` | src/main.go:609-616 | a kill shot needs the player to be falling |
| `LateState.KillShotIgnoresCreature` | src/main.go:609-616 | whatever creature is met, the later kill shot decides the same: the creature's place plays no part |
| `LateState.CameraWith` | src/main.go:685-716 | while colliding at ms = 0 or within a pixel vertically the camera snaps to the target; otherwise it ends on whole pixels, with either Round |
| `LateState.LeftEdgeStops` | src/main.go:554-559 | at the left edge moving left the sprite stops with a left hit and is pushed one pixel back inside, colliding or not and whatever the boundaries |
| `LateState.RightEdgeStops` | src/main.go:560-570 | the mirror image at the right edge, for any boundaries |
| `LateState.RestsOnFloor` | src/main.go:547-607 | a sprite standing on a 32-pixel floor block stays there with a bottom hit and no vertical speed, for frames up to 50 ms |
| `LateState.CreatureFrame` | src/main.go:641-643 | a creature off screen is unchanged; on screen it moves as UpdateSprite says and Creature.Update animates it, turns it left at its speed on a right hit, right on a left hit, and otherwise damps the gap to its speed by 0.9; it stays facing one way |
| `LateState.CreatureTurnsAtRightEdge` | src/main.go:381-409 | a creature walking into the right end is pushed back a pixel, faces left and walks left at its speed |
| `LateState.CreatureTurnsAtLeftEdge` | src/main.go:381-409 | at the left end it is pushed to x = 1, faces right and walks right at its speed |
| `LateState.Target` | src/main.go:688-691 | the camera target lies within the scroll limits; inside them it is -x + viewW/2 across and -y + viewH/2 - h/2 down (the player's middle), and limits clamp it otherwise |
| `LateState.NextCamera` | src/main.go:685-716 | UpdateViewport(0) while colliding snaps to the target (with the corrected Round; see Left out) |
| `LateState.SnapInView` | src/main.go:702-707 | a snap lands inside the scroll limits |
| `LateState.ClimbStep` | src/main.go:708-712 | while colliding the vertical camera step is at least a pixel and never passes a target a pixel or more away |
| `LateState.DampedStaysInView` | src/main.go:702-715 | with frames of at least 10 ms and the corrected Round the damped camera stays inside the scroll limits |
| `LateState.CameraLeavesViewAsWritten` | src/main.go:715 | with Round as written, a camera resting on the whole left limit -360 steps to -361, outside the limits, where the corrected Round keeps it at -360 |
| `LateState.ShortFrameOvershoots` | src/main.go:694 | at 5 ms the horizontal camera step is twice the gap and overshoots the target |
| `LateState.Hurt` | src/main.go:474-481 | ChangeHealth ignores damage while invincible; any other change lands clamped into the bar and opens a fresh 200 ms window |
| `LateState.Expire` | src/main.go:331-333 | invincibility lasts while now has not passed its end |
| `LateState.OneHitPerWindow` | src/main.go:474-481 | two hits within 200 ms cost one point of health |
| `LateState.HitLandsAfterWindow` | src/main.go:474-481 | once the window has passed, the next hit lands too |
| `LateState.LivesChanged` | src/main.go:487-493 | ChangeLives clamps the lives bar and stops the game when no life is left |
| `LateState.MaxLivesChanged` | src/main.go:483-485 | ChangeMaxLives moves the lives cap by i (never below 0), keeps a valid bar valid and leaves score, threshold and running alone |
| `LateState.Scored` | src/main.go:495-504 | SetScore: reaching the threshold grants one life slot and one life and doubles the threshold, once per call |
| `LateState.ThresholdExample` | src/main.go:893 | from the initial threshold of 400, 1000 points give one life and a threshold of 800 only |
| `LateState.State.constructor` | src/main.go:871-899 | Init's state: empty bars, threshold 400, the scroll limits from the level and window sizes, running |
| `LateState.State.Begin` | src/main.go:893-899 | the end of Init leaves one life, full health of 3 with an invincibility window, and a running game |
| `LateState.State.SetMaxHealth` | src/main.go:470-472 | the health cap moves as LivesBar.SetMax says |
| `LateState.State.UpdateSprite` | src/main.go:547-607 | the sprite ends where SpriteStep says, with the sides it reports |
| `LateState.State.ResolveMove` | src/main.go:548-601 | gravity, the edge clamp and, when the sprite collides, the boundary loop leave the sprite and the displacement still to apply where Resolved says |
| `LateState.State.KillCreature` | src/main.go:458-468 | the creature list loses the first occurrence of c |
| `LateState.State.ChangeHealth` | src/main.go:474-481 | health and the window change as Hurt says; the stored health is returned |
| `LateState.State.ChangeMaxLives` | src/main.go:483-485 | the ledger changes as MaxLivesChanged says |
| `LateState.State.ChangeLives` | src/main.go:487-493 | the ledger changes as LivesChanged says; the stored count is returned |
| `LateState.State.SetScore` | src/main.go:495-504 | the ledger changes as Scored says |
| `LateState.State.CheckKeys` | src/main.go:517-532 | the player's pose changes as AfterKeys says |
| `LateState.State.UpdateViewport` | src/main.go:685-716 | the camera moves as NextCamera says |
| `LateState.State.HandleAddBlock` | src/main.go:718-731 | START places the player and adds a boundary, FLOOR adds a boundary, BADGUY appends a mushroom |
| `LateState.State.PlaceTile` | src/main.go:718-731 | one HandleAddBlock call adds the tile's boundary, at most one creature, and keeps the creatures there |
| `LateState.State.LoadTiles` | src/main.go:777 | loading a map adds TileBoundaries and CountBadguys creatures, keeping the creatures already there |
| `LateState.ApartRemoveFirst` | src/main.go:458-468 | the splice keeps every creature's sprite distinct from the others' and from the player's |
| `LateState.State.Interact` | src/main.go:623-640 | Met: contact needs Collide; a kill shot scores, removes the creature and bounces; other contact, unless invincible, rebounds and costs one health (Hurt), and with no health left the player dies; no contact changes nothing |
| `LateState.State.CheckFallAndVictory` | src/main.go:667-681 | a fall below the level costs a life; with lives left it restores health, respawns and snaps the camera, with none it stops the game and leaves the player; reaching the right end wins and stops the game |
| `LateState.State.Visit` | src/main.go:622-643 | one creature's turn: everything Met says about the player, the bars and the list, and the creature ends as CreatureFrame says |
| `LateState.State.Turn` | src/main.go:622-662 | turn i of the loop over the frame's copy: creature i takes its turn, no other creature changes, a kill removes it and scores its points, and without Collide nothing happens to the player |
| `LateState.State.Walk` | src/main.go:622-662 | the loop over the copy: the kills, each a creature of the copy at most once, are removed in order and scored, and every creature takes its turn |
| `LateState.State.VisitAll` | src/main.go:622-662 | every creature present at the start of the frame takes its CreatureFrame turn once; the kills come from that list, each at most once, are removed and scored |
| `LateState.State.PlayerTurn` | src/main.go:664-681 | the player moves as SpriteStep says and lands; a fall costs a life and respawns with lives left or stops the game with none; the right end wins |
| `LateState.State.Update` | src/main.go:618-683 | one frame: the creatures killed, each at most once, are removed and scored; every creature takes its CreatureFrame turn; the player then moves, lands, loses a life on a fall and wins at the right end; without Collide no creature is killed |
| `EarlyActors.LivesBar.constructor` | main.go:78-86 | NewLivesBar holds the given lives and used counts |
| `EarlyActors.LivesBar.SetUsed` | main.go:88-91 | stores the used count |
| `EarlyActors.LivesBar.SetLives` | main.go:97-100 | stores the count of lives left |
| `EarlyActors.Jumped` | main.go:200-204 | Jump always takes off, sets JUMPING, clears STOPPED and keeps WALKING and the facing |
| `EarlyActors.MovedLeft` | main.go:206-211 | Left accelerates leftward by Acceleration*ms; a speed past -RunSpeed is held at -RunSpeed and one short of -WalkSpeed is raised to -WalkSpeed, any other is kept; it leaves exactly LEFT and WALKING, cancelling a jump |
| `EarlyActors.MovedRight` | main.go:213-218 | Right mirrors Left: the new speed is held at RunSpeed above it and raised to WalkSpeed below it, and kept in between; exactly RIGHT and WALKING |
| `EarlyActors.Slowed` | main.go:220-232 | Slow brakes toward zero; within one step of zero it stops and clears WALKING and JUMPING |
| `EarlyActors.Rebounded` | main.go:234-245 | Rebound throws the player away from the creature (> comparisons) and leaves the state alone |
| `EarlyActors.Bounced` | main.go:247-254 | Bounce launches vertically away from the creature and stops horizontally, without moving the player |
| `EarlyActors.AfterKeys` | main.go:362-377 | CheckKeys: Up without Down jumps; Left or Right alone moves, anything else brakes |
| `EarlyActors.FacingStaysExclusive` | main.go:200-254 | exactly one facing bit survives every player transition |
| `EarlyActors.WalkingJump` | main.go:200-218 | after Right, a jump keeps WALKING: the motion bits are not exclusive |
| `EarlyActors.Player.constructor` | main.go:168-198 | NewPlayer stands the player on its tile, stopped and facing right |
| `EarlyActors.Player.Jump` | main.go:200-204 | the new pose is Jumped of the old one |
| `EarlyActors.Player.Left` | main.go:206-211 | the new pose is MovedLeft of the old one |
| `EarlyActors.Player.Right` | main.go:213-218 | the new pose is MovedRight of the old one |
| `EarlyActors.Player.Slow` | main.go:220-232 | the new pose is Slowed of the old one |
| `EarlyActors.Player.Rebound` | main.go:234-245 | the new pose is Rebounded of the old one |
| `EarlyActors.Player.Bounce` | main.go:247-254 | the new pose is Bounced of the old one |
| `EarlyActors.Player.Update` | main.go:256-266 | the animation advances; the state and the sprite do not change |
| `EarlyActors.Creature.Spawned` | main.go:295-311 | SpawnCreature's BADGUY is 32 by 64, stands on its tile, walks left at 0.1, shows frame 1 and is worth 100 points |
| `EarlyState.SpriteStep` | main.go:387-450 | UpdateSprite with the corrected Round ends on whole pixels within half a pixel of the resolved move |
| `EarlyState.DriftsLeftAsWritten` | main.go:446 | as written, a still sprite at a whole x <= 0 moves one pixel left every frame |
| `EarlyState.StaysPut` | main.go:446 | with the corrected Round the same sprite stays put |
| `EarlyState.HitsStopMotion` | main.go:387-450 | every side UpdateSprite reports stopped the motion across it |
| `EarlyState.LeftEdgeStops` | main.go:395-399 | with the corrected Round, at the left edge moving left the sprite stops where it is with a left hit, whatever the boundaries (as written it drifts left: `DriftsLeftAsWritten`) |
| `EarlyState.RightEdgeStops` | main.go:400-409 | the mirror image at the right edge for a sprite on whole pixels, whatever the boundaries |
| `EarlyState.RestsOnFloor` | main.go:387-450 | a whole-pixel sprite on a 32-pixel floor block stays there with a bottom hit, for frames up to 50 ms |
| `EarlyState.CreatureFrame` | main.go:475-483 | a creature off screen is unchanged; on screen it moves as UpdateSprite says, then a right hit sends it left at its speed, otherwise a left hit sends it right, otherwise the speed is kept |
| `EarlyState.CreatureTurnsAtRightEdge` | main.go:475-483 | a whole-pixel creature walking into the right end stays where it is and walks left at its speed |
| `EarlyState.CreatureTurnsAtLeftEdge` | main.go:475-483 | with the corrected Round, at the left end it stays at x = 0 and walks right at its speed |
| `EarlyState.Target` | main.go:494-495 | the camera target lies within the scroll limits; inside them it is -x + viewW/2 across and -y + viewH/2 down (the player's top left corner), and limits clamp it otherwise |
| `EarlyState.NextCamera` | main.go:489-514 | UpdateViewport(0) snaps to the target |
| `EarlyState.SnapInView` | main.go:506-509 | a snap lands inside the scroll limits |
| `EarlyState.DampedStaysInView` | main.go:489-514 | with frames of at least 10 ms the damped camera stays inside the scroll limits |
| `EarlyState.DampedInView` | main.go:491-513 | the damped step, a tenth of it vertically within 200 pixels, from a camera inside the limits towards a target inside them stays inside for ms >= 10 |
| `EarlyState.StepStaysBetween` | main.go:497-498 | a step of a 1/r share of the gap, r >= 1, stays in any range holding both ends |
| `EarlyState.LifeAdded` | main.go:325-330 | AddLife adds one life and leaves the used count |
| `EarlyState.LifeLost` | main.go:332-339 | LoseLife moves one life from left to used, keeping their sum |
| `EarlyState.LivesGoNegative` | main.go:332-339 | nothing clamps: losing two lives from one leaves -1 |
| `EarlyState.Scored` | main.go:341-349 | SetScore: reaching the threshold adds one life and doubles the threshold, once per call |
| `EarlyState.ThresholdExample` | main.go:667 | from the initial threshold of 100, 250 points give one life and a threshold of 200 |
| `EarlyState.ReplayBar` | main.go:463-483 | over any run of creature turns each strike (a contact without a kill) uses up exactly one life, lives come back only through kills and at most one per kill, without kills the score and threshold stay, and with neither nothing changes |
| `EarlyState.AllMissed` | main.go:463-483 | a run of turns in which no creature is touched has neither strikes nor kills |
| `EarlyState.IsKillShot` | main.go:452-459 | a kill shot needs a falling player; feet at or below the creature's middle are never one, and a falling player whose feet are at or above the creature's top always lands one |
| `EarlyState.Proposed` | main.go:388-392 | gravity adds 0.2 to the vertical speed once per frame, whatever its length, and each displacement is its speed times ms; nothing has been hit yet |
| `EarlyState.SpriteStepAsWritten` | main.go:387-450 | with Round as written the sprite ends on whole pixels between 1.5 below and 0.5 above the resolved move, and at least half a pixel below it at or left of zero |
| `EarlyState.Damped` | main.go:491-513 | for a positive frame time the damped camera step moves towards the target on each axis, never away; at 10 ms it reaches the target across |
| `EarlyState.CornerTunnelsInFrame` | main.go:387-450 | a 10 by 10 sprite at the origin moving at 0.3 both ways for 50 ms ends at (15, 15), inside the block at (10, 10), with no hit |
| `EarlyState.State.constructor` | main.go:653-670 | Init's state: an empty lives bar, threshold 100, the scroll limits, running |
| `EarlyState.State.Begin` | main.go:667-670 | the end of Init leaves one life and a running game |
| `EarlyState.State.UpdateSprite` | main.go:387-450 | the sprite ends where SpriteStep says, with the sides it reports |
| `EarlyState.State.ResolveMove` | main.go:388-440 | gravity, the edge clamp and the boundary loop leave the sprite and the displacement still to apply where Resolved says |
| `EarlyState.State.SpawnCreature` | main.go:295-311 | appends a fresh BADGUY creature, 32 by 64, standing on its tile, walking left at 0.1, showing frame 1 and worth 100 points; nothing else changes |
| `EarlyState.State.KillCreature` | main.go:313-323 | the creature list loses the first occurrence of c |
| `EarlyState.State.AddLife` | main.go:325-330 | the lives bar changes as LifeAdded says |
| `EarlyState.State.LoseLife` | main.go:332-339 | the lives bar changes as LifeLost says |
| `EarlyState.State.SetScore` | main.go:341-349 | the ledger changes as Scored says |
| `EarlyState.State.CheckKeys` | main.go:362-377 | the player's pose changes as AfterKeys says |
| `EarlyState.State.UpdateViewport` | main.go:489-514 | the camera moves as NextCamera says |
| `EarlyState.State.HandleAddBlock` | main.go:516-527 | START places the player and adds a boundary, FLOOR adds a boundary, BADGUY appends a fresh 32 by 64 creature standing on the tile, walking left at 0.1, worth 100 points and showing frame 1 (main.go:295-311) |
| `EarlyState.State.PlaceTile` | main.go:516-527 | one HandleAddBlock call adds the tile's boundary, at most one creature, and keeps the creatures there |
| `EarlyState.State.LoadTiles` | main.go:577 | loading a map adds TileBoundaries and CountBadguys creatures |
| `EarlyState.ApartRemoveFirst` | main.go:313-323 | the splice keeps every creature's sprite distinct from the others' and from the player's |
| `EarlyState.State.Interact` | main.go:464-474 | Met: a kill shot scores, removes the creature and bounces; other contact costs a life (LifeLost) and rebounds; no contact changes nothing |
| `EarlyState.State.Visit` | main.go:463-483 | one creature's turn: everything Met says, and the creature's sprite ends as CreatureFrame says |
| `EarlyState.State.Turn` | main.go:463-483 | turn i of the loop over the frame's copy: creature i takes its turn, no other creature changes, and a kill removes it and scores its points; the score, threshold and lives bar change as the turn's event says: a kill through SetScore, any other contact through LoseLife, no contact not at all; the event is a miss exactly when the player's box does not overlap the creature's box at the start of the turn, and the player's box does not move |
| `EarlyState.State.CountedTurn` | main.go:463-483 | turn i as the loop counts it: one more event, the kill added to the kills, and the bookkeeping still the replay of the events from the start of the frame |
| `EarlyState.State.Walk` | main.go:463-483 | the loop over the copy: the kills, each a creature of the copy at most once, are removed in order and scored, every creature takes its turn, and the score, threshold and lives bar are the replay of one event per creature, as many kills among them as creatures were killed; event j is a miss exactly when the player's box at the start of the frame does not overlap creature j's starting box |
| `EarlyState.State.VisitAll` | main.go:463-483 | every creature present at the start of the frame takes its CreatureFrame turn once; the kills come from that list, each at most once, are removed and scored; the score, threshold and lives bar are the replay of one event per creature; event j is a miss exactly when the player's box at the start of the frame does not overlap creature j's starting box; a frame in which the player touches no creature kills none and leaves the score, threshold and lives bar as they were |
| `EarlyState.State.PlayerTurn` | main.go:485-486 | the player's animation advances on its state, then the player moves as SpriteStep says |
| `EarlyState.State.Update` | main.go:461-487 | one frame: the creatures killed, each at most once, are removed and scored; the score, threshold and lives bar are the replay of one event per creature, a miss exactly for each creature the player's starting box does not overlap (so ReplayBar costs one life per touched creature not killed); touching no creature kills none and leaves the score, threshold and lives bar as they were; the player the creature loop leaves stands where it stood; every creature takes its CreatureFrame turn; the player keeps its state bits, animates and moves |
| `Revisions.LandingKillsInBoth` | main.go:452-459 | a falling player landing on a creature's head is a kill shot in both revisions |
| `Revisions.EarlyNeedsTheHead` | main.go:452-459 | the earlier kill shot needs the player's feet above the creature's middle |
| `Revisions.LateIgnoresPosition` | src/main.go:609-616 | the later kill shot looks only at a fall faster than 0.1, so side-on contact can kill |
| `Revisions.SlowLandingKillsEarlyOnly` | src/main.go:609-616 | a slow fall onto the head kills in the earlier revision only |
| `Revisions.MidAirJump` | src/main.go:253-259 | the earlier Jump fires again in mid-air; the later one ignores a jumping player |

## Left out

- Rendering, textures, text, the HUD layout, the window, the splash screen
  and the `main` loop are not modelled. So are `Paint`, `Running` and the
  lives bar's `Render`.
- `Init`'s engine set-up (texture loading, the map loader's colour table,
  scene graph wiring) is not modelled. The state it builds is the `State`
  constructor. The calls at its end are `Begin`. The map loader's calls to
  `HandleAddBlock` are `LoadTiles`.
- Key polling is left out: `CheckKeys` takes the key states as a `Keys`
  value. `HandleKeys` (Escape clears `running`) is left out as input
  plumbing.
- `Visible` is left out because it asks the engine for window bounds. `Update`
  receives the set of creatures on screen.
- `time.Now()` becomes the `now` parameter, read once per call. Where the
  source reads the clock twice in one call, the model uses one reading.
- `float32` rounding is not modelled: all arithmetic is exact on `real`.
- The engine's `TestMove`, `CollidesWith`, `Move`, `MoveTo`, `SetFrame` and
  `RelativeBounds` are modelled by the assumed semantics stated above. The
  engine code is not part of this model.
- `NewCreature` is modelled only inside `LateActors.Creature.Mushroom`,
  which is `NewMushroom` (src/main.go:411-421) together with the
  `NewCreature` call it makes (src/main.go:355-379); `HandleAddBlock` reaches
  it for a BADGUY tile. `NewSmallMushroom` is left out with the spawn below.
- `SpawnCreature` for a kind other than BADGUY dereferences a nil creature
  in the source. The model requires BADGUY.
- `LateState.State.UpdateViewport`: at ms = 0 with Collide off, the source
  divides the gap by zero, which in `float32` gives an infinite or NaN
  offset that `real` cannot represent. The model requires Collide or
  ms != 0 there.
- The getters `Available`, `Max`, `Used`, `Lives`, `Score`, `Invincible` are
  field reads in the model.
- `LateState.State.Update` and `EarlyState.State.Update` iterate a copy of
  the creature list taken at the start of the frame. The source's visit
  order after a kill is modelled separately by `RangeVisitsAsWritten` (see
  Findings).
- `NewSmallMushroom` and the spawning of small mushrooms inside the
  creature loop (src/main.go:644-660) are left out: the spawn depends on
  `rand.Float32()` and on `time.Now()` against `LastSpawn`.
- `LateState.State.UpdateViewport` and `LateState.NextCamera` round the
  camera with the corrected `Round`. The source's call at src/main.go:715
  uses `Round` as written, which takes a camera on a whole left limit at or
  below zero one pixel outside it (`CameraWith(..., true)`,
  `CameraLeavesViewAsWritten`). `LateState.DampedStaysInView` holds for the
  corrected camera only.
- `RoundStaysInBounds` is stated of the corrected `Round`; with `Round` as
  written a whole bound at or below zero is left (see Findings).
- `EarlyState.State.UpdateSprite` and `EarlyState.SpriteStep` round the
  sprite with the corrected `Round` (main.go:446); the as-written step is
  `SpriteStepAsWritten`, and `DriftsLeftAsWritten` shows where they differ.
- `LateState.State.Update`, `LateState.State.VisitAll` and
  `LateState.State.Walk` do not state that a frame without kills leaves the
  score, lives and threshold as they were. Each turn states it
  (`LateState.State.Turn`, and `Met` in `Interact`); carrying it through the
  loop made the loop's proof too costly.
- `LateState.State.Update` constrains `met`, the player as the creature loop
  leaves it, only when the player does not collide (then it is the player
  at the start of the frame). With contact, the player's pose after several
  creatures is the composition of each turn's `Met`, which the frame
  contract does not spell out.
- `EarlyState.State.Update` leaves the velocities of `met` unconstrained
  for the same reason; it does state that its position, its size and the
  player's state bits are those at the start of the frame.

## Design text versus code

The model follows the code where the repository's design description says
otherwise:
- The design says a state has exactly one motion bit. The code can reach
  JUMPING and WALKING together in both revisions (`MotionBitsNotExclusive`,
  `WalkingJump`). Only the facing group is exclusive
  (`FacingStaysExclusive`).
- The design says the camera always stays inside the level. The damped
  step divides the gap by 0.1 ms, so frames shorter than 10 ms overshoot
  (`ShortFrameOvershoots`). `EarlyState.DampedStaysInView` therefore needs
  ms >= 10, and so does `LateState.DampedStaysInView`, which in addition
  holds only with the corrected `Round` (see Findings).
- Invincibility starts on every health change that lands, including the
  health gain at the end of `Init` and on respawn, not only on damage.
- The earlier revision's kill shot tests position; the later one tests only
  the fall speed (`Revisions`).
- The design says a move never ends inside a boundary. Each boundary tests
  the horizontal and the vertical half of the move separately, both from
  where the sprite stands, so a diagonal move past a block's corner can end
  inside it (`Collision.CornerTunnels`, `EarlyState.CornerTunnelsInFrame`).
- The design says a dying player ignores further input. The main loop calls
  `CheckKeys` every frame (src/main.go:985-987) and nothing there looks at
  Collide, so the keys still turn and drive a dying player
  (`LateActors.DyingPlayerSteers`).

## Findings

| source | as written | input that shows it | evidently intended | confidence | as-written member | corrected member |
|---|---|---|---|---|---|---|
| src/main.go:67-74 | `Round` returns `Floor(a - 0.5)` for every a <= 0, so whole numbers at or below zero lose one (also main.go:62-69) | Round(0) = -1; in the earlier revision a still sprite at x = 0 moves to x = -1 on the next frame, then -2; in the later revision the camera at the left limit -360 steps to -361 | round half away from zero, leaving whole numbers unchanged | not executed | `Common.RoundAsWrittenShiftsNonPositive`, `EarlyState.DriftsLeftAsWritten`, `LateState.CameraLeavesViewAsWritten` | `Common.Round`, `EarlyState.StaysPut`, `LateState.DampedStaysInView` |
| src/main.go:622-662 | `Update` ranges over `s.creatures` while `KillCreature` splices the same backing array (also main.go:463-484) | creatures [1, 2, 3], the player kills 1: the loop visits 1, 3, 3, so creature 2 is skipped and 3 is handled twice | visit every creature present at the start of the frame once | not executed | `Common.RangeVisitsAsWritten`, `Common.RangeSkipsAfterKill` | `Common.RangeVisitsOverCopy`, `LateState.State.VisitAll`, `EarlyState.State.VisitAll` |
