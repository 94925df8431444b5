/** Pieces both revisions of the platformer share: the float helpers, the
    rectangle and sprite abstraction standing in for the 2D engine, the
    hit-side bits, tile records and the ordered removal used by KillCreature. */
module Common {

  /** The hit sides UpdateSprite reports. The source packs them into an int
      (HITLEFT = 1, HITRIGHT = 2, HITTOP = 4, HITBOTTOM = 8); here each bit
      is a field and Mask gives the source's encoding. */
  datatype Sides = Sides(left: bool, right: bool, top: bool, bottom: bool) {
    function Mask(): (m: int)
      ensures 0 <= m < 16
      ensures (m % 2 == 1) == left && ((m / 2) % 2 == 1) == right
      ensures ((m / 4) % 2 == 1) == top && ((m / 8) % 2 == 1) == bottom
    {
      (if left then 1 else 0) + (if right then 2 else 0) + (if top then 4 else 0) + (if bottom then 8 else 0)
    }
  }

  const NoHit: Sides := Sides(false, false, false, false)

  /** The encoding loses nothing: equal masks mean equal sides. */
  lemma SidesMaskInjective(a: Sides, b: Sides)
    requires a.Mask() == b.Mask()
    ensures a == b
  {
  }

  /** A state bitmask: facing {LEFT, RIGHT} and motion {STOPPED, WALKING,
      JUMPING}, bits 1, 2, 4, 8 and 16 in the source (creatures use only the
      facing bits). Mask gives the source's encoding. */
  datatype Flags = Flags(left: bool, right: bool, stopped: bool, walking: bool, jumping: bool) {
    function Mask(): (m: int)
      ensures 0 <= m < 32
      ensures (m % 2 == 1) == left && ((m / 2) % 2 == 1) == right && ((m / 4) % 2 == 1) == stopped
      ensures ((m / 8) % 2 == 1) == walking && ((m / 16) % 2 == 1) == jumping
    {
      (if left then 1 else 0) + (if right then 2 else 0) + (if stopped then 4 else 0)
        + (if walking then 8 else 0) + (if jumping then 16 else 0)
    }

    /** Exactly one facing bit is set. */
    predicate OneFacing() {
      left != right
    }
  }

  /** A new player's state, STOPPED | RIGHT (mask 6). */
  const StoppedRight: Flags := Flags(false, true, true, false, false)

  lemma FlagsMaskInjective(a: Flags, b: Flags)
    requires a.Mask() == b.Mask()
    ensures a == b
  {
  }

  function Min(a: real, b: real): (r: real)
    ensures r <= a && r <= b
    ensures r == a || r == b
  {
    if a < b then a else b
  }

  function Max(a: real, b: real): (r: real)
    ensures r >= a && r >= b
    ensures r == a || r == b
  {
    if a < b then b else a
  }

  function Abs(a: real): (r: real)
    ensures r >= 0.0
    ensures r == a || r == -a
  {
    if a < 0.0 then -a else a
  }

  predicate IsIntegral(a: real) {
    a == a.Floor as real
  }

  /** Round as both revisions write it: shift by one half away from zero,
      then take the floor. For non-positive inputs the floor lands one
      below the intended value. */
  function RoundAsWritten(a: real): (r: real)
    ensures IsIntegral(r)
    ensures a > 0.0 ==> a - 0.5 < r <= a + 0.5
    ensures a <= 0.0 ==> a - 1.5 < r <= a - 0.5
  {
    if a > 0.0 then (a + 0.5).Floor as real else (a - 0.5).Floor as real
  }

  /** The written Round moves every non-positive integer down by one. */
  lemma RoundAsWrittenShiftsNonPositive(n: int)
    requires n <= 0
    ensures RoundAsWritten(n as real) == (n - 1) as real
  {
    var r := RoundAsWritten(n as real);
    assert r.Floor == n - 1;
  }

  /** Round half up on the non-negative side: the written shift and floor. */
  function HalfUp(a: real): (r: real)
    ensures IsIntegral(r)
    ensures a - 0.5 < r <= a + 0.5
    ensures IsIntegral(a) ==> r == a
  {
    assert IsIntegral(a) ==> (a + 0.5).Floor == a.Floor by {
      if IsIntegral(a) { assert a + 0.5 == a.Floor as real + 0.5; }
    }
    (a + 0.5).Floor as real
  }

  /** A whole number is the image of an int, and every such image is whole. */
  lemma IntIsIntegral(k: int)
    ensures IsIntegral(k as real)
  {
    assert (k as real).Floor == k;
  }

  /** Whole numbers are closed under negation. */
  lemma NegIntegral(x: real)
    ensures IsIntegral(x) <==> IsIntegral(-x)
  {
    if IsIntegral(x) {
      IntIsIntegral(-(x.Floor));
    }
    if IsIntegral(-x) {
      IntIsIntegral(-((-x).Floor));
    }
  }

  /** Round half away from zero: the written shift followed by truncation
      toward zero rather than floor. */
  function Round(a: real): (r: real)
    ensures IsIntegral(r)
    ensures a - 0.5 <= r <= a + 0.5
    ensures IsIntegral(a) ==> r == a
  {
    if a > 0.0 then HalfUp(a)
    else
      var h := HalfUp(-a);
      NegIntegral(a);
      NegIntegral(h);
      -h
  }

  lemma RoundIsOdd(a: real)
    ensures Round(-a) == -Round(a)
  {
  }

  /** Rounding keeps a value inside integral bounds. */
  lemma RoundStaysInBounds(a: real, lo: real, hi: real)
    requires IsIntegral(lo) && IsIntegral(hi) && lo <= a <= hi
    ensures lo <= Round(a) <= hi
  {
    var r := Round(a);
    assert r.Floor >= lo.Floor && r.Floor <= hi.Floor;
  }

  /** A camera step of a 1/r share of the gap, r >= 1, lands between the
      start and the target. */
  lemma SharedStepBetween(c: real, t: real, r: real)
    requires r >= 1.0
    ensures Min(c, t) <= c + (t - c) / r <= Max(c, t)
  {
    var d := t - c;
    var q := d / r;
    assert q * r == d;
    if d >= 0.0 {
      assert q >= 0.0;
      assert q <= q * r;
    } else {
      assert q < 0.0;
      assert q >= q * r;
    }
  }

  /** Where both revisions write `Min(Max(v, lo), hi)`. */
  function Clamp(v: real, lo: real, hi: real): (r: real)
    ensures lo <= hi ==> lo <= r <= hi
    ensures lo <= v <= hi ==> r == v
    ensures lo <= hi && v < lo ==> r == lo
    ensures v > hi ==> r == hi
  {
    Min(Max(v, lo), hi)
  }

  /** An axis-aligned rectangle: min corner (x, y), size w by h; y grows downward. */
  datatype Rect = Rect(x: real, y: real, w: real, h: real)

  /** Overlap of open rectangles: touching faces do not overlap. The engine's
      overlap test is not part of this model; this is its assumed meaning. */
  predicate Overlaps(a: Rect, b: Rect) {
    a.x < b.x + b.w && b.x < a.x + a.w && a.y < b.y + b.h && b.y < a.y + a.h
  }

  function Translate(r: Rect, dx: real, dy: real): Rect {
    Rect(r.x + dx, r.y + dy, r.w, r.h)
  }

  /** The engine's `sprite.TestMove(dx, dy, block)`: true when the rectangle
      moved by (dx, dy) stays clear of the block (assumed meaning). */
  predicate TestMove(r: Rect, dx: real, dy: real, block: Rect) {
    !Overlaps(Translate(r, dx, dy), block)
  }

  /** The engine's `CollidesWith`, assumed to be rectangle overlap. */
  predicate CollidesWith(a: Rect, b: Rect) {
    Overlaps(a, b)
  }

  /** The value of a sprite: position, size, velocity and the Collide flag. */
  datatype Body = Body(x: real, y: real, w: real, h: real, vx: real, vy: real, collide: bool) {
    function Bounds(): Rect {
      Rect(x, y, w, h)
    }
  }

  /** An engine sprite, relative to the level it is placed in. */
  class Sprite {
    var x: real
    var y: real
    const w: real
    const h: real
    var vx: real
    var vy: real
    var collide: bool
    var frame: int

    /** A new sprite stands still and takes part in collisions. */
    constructor (x: real, y: real, w: real, h: real)
      ensures Snapshot() == Body(x, y, w, h, 0.0, 0.0, true) && frame == 0
    {
      this.x, this.y, this.w, this.h := x, y, w, h;
      vx, vy, collide, frame := 0.0, 0.0, true, 0;
    }

    function Snapshot(): Body
      reads this
    {
      Body(x, y, w, h, vx, vy, collide)
    }

    function Bounds(): Rect
      reads this
    {
      Rect(x, y, w, h)
    }

    method Move(dx: real, dy: real)
      modifies this
      ensures Snapshot() == old(Snapshot()).(x := old(x) + dx, y := old(y) + dy)
      ensures frame == old(frame)
    {
      x, y := x + dx, y + dy;
    }

    method MoveTo(nx: real, ny: real)
      modifies this
      ensures Snapshot() == old(Snapshot()).(x := nx, y := ny)
      ensures frame == old(frame)
    {
      x, y := nx, ny;
    }

    method SetFrame(f: int)
      modifies this
      ensures Snapshot() == old(Snapshot()) && frame == f
    {
      frame := f;
    }
  }

  /** The level's scroll limits and the window size. */
  datatype Screen = Screen(xmin: real, xmax: real, ymin: real, ymax: real, viewW: real, viewH: real) {
    predicate Valid() {
      xmin <= xmax && ymin <= ymax
    }
  }

  /** The level's offset inside the window (the engine's env position). */
  datatype Camera = Camera(x: real, y: real)

  predicate InView(c: Camera, sc: Screen) {
    sc.xmin <= c.x <= sc.xmax && sc.ymin <= c.y <= sc.ymax
  }

  /** Speeds and rates a player is built with. */
  datatype Tuning = Tuning(jumpSpeed: real, walkSpeed: real, runSpeed: real,
                           acceleration: real, deceleration: real)

  /** A player's sprite together with its state bits. */
  datatype Pose = Pose(body: Body, state: Flags)

  /** Which of the four arrow keys are down this frame. */
  datatype Keys = Keys(up: bool, down: bool, left: bool, right: bool)

  /** Tile kinds the level map can place. */
  const Floor: int := 0
  const Start: int := 1
  const PlayerKind: int := 2
  const Badguy: int := 3

  /** The level map's block size in pixels. */
  const BlockSize: real := 32.0

  /** One placed tile as the map loader reports it: kind and position. */
  datatype Tile = Tile(kind: int, x: real, y: real)

  /** The solid rectangle a tile occupies (assumed: the tile sprite sits at
      the reported position with the map's block size). */
  function TileRect(t: Tile): Rect {
    Rect(t.x, t.y, BlockSize, BlockSize)
  }

  /** The boundary one tile contributes: floor and start tiles are solid. */
  function TileBoundary(t: Tile): seq<Rect> {
    if t.kind == Floor || t.kind == Start then [TileRect(t)] else []
  }

  /** The boundaries FLOOR and START tiles add, in load order. */
  function TileBoundaries(tiles: seq<Tile>): (r: seq<Rect>)
    ensures |r| <= |tiles|
  {
    if tiles == [] then []
    else
      var rest := TileBoundaries(tiles[1..]);
      if tiles[0].kind == Floor || tiles[0].kind == Start then [TileRect(tiles[0])] + rest else rest
  }

  /** The boundaries a map adds are exactly the rectangles of its floor and
      start tiles. */
  lemma {:induction false} TileBoundariesExact(tiles: seq<Tile>)
    ensures forall b :: b in TileBoundaries(tiles) ==> exists t :: t in tiles && (t.kind == Floor || t.kind == Start) && b == TileRect(t)
    ensures forall t :: t in tiles && (t.kind == Floor || t.kind == Start) ==> TileRect(t) in TileBoundaries(tiles)
  {
    if tiles != [] {
      TileBoundariesExact(tiles[1..]);
      assert forall t :: t in tiles[1..] ==> t in tiles;
      assert forall t :: t in tiles ==> t == tiles[0] || t in tiles[1..];
    }
  }


  /** Number of BADGUY tiles, each of which spawns one creature. */
  function CountBadguys(tiles: seq<Tile>): (n: nat)
    ensures n <= |tiles|
  {
    if tiles == [] then 0
    else (if tiles[0].kind == Badguy then 1 else 0) + CountBadguys(tiles[1..])
  }

  /** A map adds no creature exactly when it holds no enemy tile. */
  lemma {:induction false} NoBadguys(tiles: seq<Tile>)
    ensures CountBadguys(tiles) == 0 <==> forall t :: t in tiles ==> t.kind != Badguy
  {
    if tiles != [] {
      NoBadguys(tiles[1..]);
      assert forall t :: t in tiles ==> t == tiles[0] || t in tiles[1..];
    }
  }

  lemma {:induction false} BoundariesAppend(tiles: seq<Tile>, t: Tile)
    ensures TileBoundaries(tiles + [t])
         == TileBoundaries(tiles) + TileBoundary(t)
  {
    if tiles == [] {
      assert [t][1..] == [];
    } else {
      assert (tiles + [t])[1..] == tiles[1..] + [t];
      BoundariesAppend(tiles[1..], t);
    }
  }

  lemma {:induction false} BadguysAppend(tiles: seq<Tile>, t: Tile)
    ensures CountBadguys(tiles + [t]) == CountBadguys(tiles) + (if t.kind == Badguy then 1 else 0)
  {
    if tiles == [] {
      assert [t][1..] == [];
    } else {
      assert (tiles + [t])[1..] == tiles[1..] + [t];
      BadguysAppend(tiles[1..], t);
    }
  }

  /** Loading the first i+1 tiles of a map extends loading the first i by tile i. */
  lemma LoadStep(tiles: seq<Tile>, i: int)
    requires 0 <= i < |tiles|
    ensures TileBoundaries(tiles[..i + 1]) == TileBoundaries(tiles[..i]) + TileBoundary(tiles[i])
    ensures CountBadguys(tiles[..i + 1]) == CountBadguys(tiles[..i]) + (if tiles[i].kind == Badguy then 1 else 0)
  {
    assert tiles[..i + 1] == tiles[..i] + [tiles[i]];
    BoundariesAppend(tiles[..i], tiles[i]);
    BadguysAppend(tiles[..i], tiles[i]);
  }

  /** s starts with p. */
  predicate Extends<T(==)>(s: seq<T>, p: seq<T>) {
    |p| <= |s| && s[..|p|] == p
  }

  lemma ExtendsTrans<T>(a: seq<T>, b: seq<T>, c: seq<T>)
    requires Extends(a, b) && Extends(b, c)
    ensures Extends(a, c)
  {
    assert a[..|c|] == a[..|b|][..|c|];
  }

  /** Position of the first occurrence of x in s. */
  function IndexOf<T(==)>(s: seq<T>, x: T): (i: nat)
    requires x in s
    ensures i < |s| && s[i] == x && x !in s[..i]
  {
    if s[0] == x then 0 else 1 + IndexOf(s[1..], x)
  }

  /** What KillCreature does to the creature slice: drop the first
      occurrence of x and keep everything else in order. */
  function RemoveFirst<T(==)>(s: seq<T>, x: T): (r: seq<T>)
    ensures x !in s ==> r == s
    ensures x in s ==> r == s[..IndexOf(s, x)] + s[IndexOf(s, x) + 1..]
    ensures |r| == if x in s then |s| - 1 else |s|
    ensures forall y :: y in r ==> y in s
  {
    if x in s then
      var i := IndexOf(s, x);
      assert forall y :: y in s[..i] + s[i + 1..] ==> y in s by {
        assert s == s[..i] + [s[i]] + s[i + 1..];
      }
      s[..i] + s[i + 1..]
    else s
  }


  /** The first index holding x is the one IndexOf reports. */
  lemma {:induction false} IndexOfIsFirst<T>(s: seq<T>, x: T, i: nat)
    requires i < |s| && s[i] == x && x !in s[..i]
    ensures IndexOf(s, x) == i
  {
    if i > 0 {
      assert s[0] in s[..i];
      assert s[1..][..i - 1] == s[1..i];
      assert forall y :: y in s[1..i] ==> y in s[..i];
      IndexOfIsFirst(s[1..], x, i - 1);
    }
  }

  /** Removing the creatures of `killed` one after another, in order. */
  function RemoveEach<T(==)>(s: seq<T>, killed: seq<T>): (r: seq<T>)
    ensures forall y :: y in r ==> y in s
    ensures |r| <= |s|
    decreases |killed|
  {
    if killed == [] then s
    else RemoveFirst(RemoveEach(s, killed[..|killed| - 1]), killed[|killed| - 1])
  }

  /** Where element i of RemoveFirst(s, x) sits in s: the elements before
      the removed one keep their place, the rest move down by one. */
  lemma RemoveFirstAt<T>(s: seq<T>, x: T, i: nat) returns (k: nat)
    requires i < |RemoveFirst(s, x)|
    ensures k < |s| && RemoveFirst(s, x)[i] == s[k] && (i < k <==> x in s && IndexOf(s, x) <= i)
  {
    if x in s && IndexOf(s, x) <= i {
      k := i + 1;
    } else {
      k := i;
    }
  }

  /** One more turn of a loop over cs that records, in order, the elements
      it removed: the record stays inside what has been walked. */
  lemma KilledStep<T>(cs: seq<T>, i: nat, killed: seq<T>)
    requires i < |cs| && multiset(killed) <= multiset(cs[..i])
    ensures multiset(killed) <= multiset(cs[..i + 1])
    ensures multiset(killed + [cs[i]]) <= multiset(cs[..i + 1])
    ensures RemoveEach(cs, killed + [cs[i]]) == RemoveFirst(RemoveEach(cs, killed), cs[i])
  {
    assert cs[..i + 1] == cs[..i] + [cs[i]];
    assert (killed + [cs[i]])[..|killed|] == killed;
  }

  /** Removal takes away exactly one copy of x, when there is one. */
  lemma RemoveFirstMultiset<T>(s: seq<T>, x: T)
    ensures multiset(RemoveFirst(s, x)) == multiset(s) - multiset{x}
  {
    if x in s {
      var k := IndexOf(s, x);
      assert s == s[..k] + [x] + s[k + 1..];
      assert multiset(s) == multiset(s[..k]) + multiset{x} + multiset(s[k + 1..]);
      assert multiset(RemoveFirst(s, x)) == multiset(s[..k]) + multiset(s[k + 1..]);
    } else {
      assert multiset(s)[x] == 0;
      assert multiset(s) - multiset{x} == multiset(s);
    }
  }

  /** Go's `for _, c := range xs` evaluates the slice once and then reads its
      backing array afresh at each index, while KillCreature splices the
      same array with `append(xs[:j], xs[j+1:]...)`. This is the sequence of
      creatures the loop body sees when the members of `killed` are removed
      as they are visited: `backing` is the array, `len` the slice's current
      length, `i` the next index. */
  function RangeVisitsAsWritten<T(==)>(backing: seq<T>, len: nat, i: nat, killed: set<T>): (r: seq<T>)
    requires len <= |backing|
    // range fixes the number of turns when it starts, whatever is removed
    ensures i <= |backing| ==> |r| == |backing| - i
    // with nothing removed it is the plain walk
    ensures killed == {} && i <= |backing| ==> r == backing[i..]
    decreases |backing| - i
  {
    if i >= |backing| then []
    else
      var c := backing[i];
      if c in killed && c in backing[..len] then
        var j := IndexOf(backing[..len], c);
        // append copies xs[j+1:len] down by one; the slot at len-1 keeps its old value
        var spliced := backing[..j] + backing[j + 1..len] + backing[len - 1..];
        [c] + RangeVisitsAsWritten(spliced, len - 1, i + 1, killed)
      else
        assert backing[i..] == [c] + backing[i + 1..];
        [c] + RangeVisitsAsWritten(backing, len, i + 1, killed)
  }

  /** Killing the first of three creatures: the second is never visited and
      the third is visited twice. */
  lemma RangeSkipsAfterKill()
    ensures RangeVisitsAsWritten([1, 2, 3], 3, 0, {1}) == [1, 3, 3]
  {
    var arr := [1, 2, 3];
    assert 1 in arr[..3] && IndexOf(arr[..3], 1) == 0;
    var spliced := arr[..0] + arr[1..3] + arr[2..];
    assert spliced == [2, 3, 3];
    assert 3 !in {1} && 3 !in {1};
    assert RangeVisitsAsWritten(spliced, 2, 3, {1}) == [];
    assert RangeVisitsAsWritten(spliced, 2, 2, {1}) == [3];
    assert RangeVisitsAsWritten(spliced, 2, 1, {1}) == [3, 3];
  }

  /** The intended iteration: range over a copy taken at the start of the
      frame, so removals do not disturb the visit order. */
  function RangeVisitsOverCopy<T(==)>(snapshot: seq<T>, i: nat, killed: set<T>): (r: seq<T>)
    requires i <= |snapshot|
    ensures r == snapshot[i..]
    decreases |snapshot| - i
  {
    if i == |snapshot| then []
    else
      var c := snapshot[i];
      assert snapshot[i..] == [c] + snapshot[i + 1..];
      [c] + RangeVisitsOverCopy(snapshot, i + 1, killed)
  }
}
