/** How the two revisions differ on the same inputs: when a contact with a
    creature is a kill, and whether a jump can be repeated in mid-air. */
module Revisions {
  import opened Common
  import EarlyActors
  import EarlyState
  import LateActors
  import LateState

  /** Both revisions count a falling player landing on a creature's head
      as a kill. */
  lemma LandingKillsInBoth(p: Body, c: Body)
    requires p.y + p.h == c.y && c.h > 0.0 && p.vy > 0.1
    ensures EarlyState.IsKillShot(p, c) && LateState.IsKillShot(p, c)
  {
  }

  /** The earlier revision never counts a contact whose feet are at or
      below the middle of the creature, however fast the player falls. */
  lemma EarlyNeedsTheHead(p: Body, c: Body)
    requires p.y + p.h >= c.y + c.h / 2.0
    ensures !EarlyState.IsKillShot(p, c)
  {
  }

  /** The later revision looks only at the fall speed: a side-on contact of
      two equal sprites counts as a kill once the player falls faster than
      0.1, and never counts below that speed. */
  lemma LateIgnoresPosition(p: Body, c: Body)
    requires p.y == c.y && p.h == c.h && c.h > 0.0
    ensures !EarlyState.IsKillShot(p, c)
    ensures LateState.IsKillShot(p, c) <==> p.vy > 0.1
  {
  }

  /** A slow fall onto the head kills in the earlier revision only. */
  lemma SlowLandingKillsEarlyOnly(p: Body, c: Body)
    requires p.y + p.h == c.y && c.h > 0.0 && 0.0 < p.vy <= 0.1
    ensures EarlyState.IsKillShot(p, c) && !LateState.IsKillShot(p, c)
  {
  }

  /** The earlier Jump fires again in mid-air and restores the take-off
      speed; the later Jump ignores a player that is already jumping. */
  lemma MidAirJump(p: Pose)
    requires p.state.jumping && p.body.vy > 0.0
    ensures EarlyActors.Jumped(p, EarlyActors.PlayerTuning).body.vy == -0.8
    ensures LateActors.Jumped(p, LateActors.PlayerTuning) == p
  {
  }
}
