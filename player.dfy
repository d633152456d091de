/**
 * The player of the game (main.py Player): one tick of Player.update with the
 * float physics replaced by integer parameters.
 */
module GamePlayer {
  import opened Geometry
  import opened GameWorld

  /** The player sprite's size: display_width // 25 by display_width // 12. */
  const PlayerWidth := DisplayWidth / 25
  const PlayerHeight := DisplayWidth / 12

  /**
   * speed, jvel_y, dvel_y and lvel_y as integers. The source computes
   * lvel_y as an absolute value, so the terminal velocity is never negative.
   */
  datatype Physics = Physics(speed: int, jump: int, gravity: int, terminal: int) {
    predicate Valid() { terminal >= 0 }
  }

  /** The keys read this tick: up or space, left or a, right or d. */
  datatype Keys = Keys(jump: bool, left: bool, right: bool)

  /** What the collision scan threads from tile to tile. */
  datatype Motion = Motion(dx: int, dy: int, velY: int, inJump: bool)

  /** The fields Player.update changes. */
  datatype PlayerState = PlayerState(x: int, y: int, velY: int, inJump: bool, coins: int, dead: bool)

  /** The player's box at (x, y). */
  function BoxAt(x: int, y: int): Rect {
    Rect(x, y, PlayerWidth, PlayerHeight)
  }

  // ---------------------------------------------------------------------------
  // The collision scan

  /**
   * One tile of the collision loop: the horizontal test with the current dx,
   * the vertical test with the current dy (which only acts while vel_y is not
   * 0), then the zero-height ground probe.
   */
  function TileStep(t: Rect, box: Rect, m: Motion): Motion {
    var dx := if Overlaps(t, Rect(box.x + m.dx, box.y, box.w, box.h)) then 0 else m.dx;
    var vertical := Overlaps(t, Rect(box.x, box.y + m.dy, box.w, box.h));
    var m1 :=
      if vertical && m.velY < 0 then Motion(dx, t.Bottom() - box.y, 0, m.inJump)
      else if vertical && m.velY > 0 then Motion(dx, t.y - box.Bottom(), 0, false)
      else Motion(dx, m.dy, m.velY, m.inJump);
    if Overlaps(t, Rect(box.x, box.y, box.w, 0)) then m1.(inJump := true) else m1
  }

  /** The collision loop over `tiles` in list order. */
  function Resolve(tiles: seq<Rect>, box: Rect, m: Motion): Motion {
    if |tiles| == 0 then m
    else TileStep(tiles[|tiles| - 1], box, Resolve(tiles[..|tiles| - 1], box, m))
  }

  /** The index of the first box of `rs` that overlaps `b`, or -1. */
  function FirstHit(rs: seq<Rect>, b: Rect): (i: int)
    ensures -1 <= i < |rs|
    ensures i >= 0 ==> Overlaps(rs[i], b)
    ensures forall j :: 0 <= j < |rs| && (i < 0 || j < i) ==> !Overlaps(rs[j], b)
  {
    if |rs| == 0 then -1
    else
      var i := FirstHit(rs[..|rs| - 1], b);
      if i >= 0 then i else if Overlaps(rs[|rs| - 1], b) then |rs| - 1 else -1
  }

  /** Some box of `rs` at index `from` or later overlaps `b`. */
  predicate HitFrom(rs: seq<Rect>, b: Rect, from: int) {
    exists j :: from <= j < |rs| && 0 <= j && Overlaps(rs[j], b)
  }

  /** Once dx has been zeroed it stays zero, so dx survives exactly when no tile blocks the first shift. */
  lemma {:induction false} ResolveDx(tiles: seq<Rect>, box: Rect, m: Motion)
    ensures Resolve(tiles, box, m).dx ==
      if AnyOverlap(tiles, Rect(box.x + m.dx, box.y, box.w, box.h)) then 0 else m.dx
  {
    if |tiles| > 0 {
      var init := tiles[..|tiles| - 1];
      var shifted := Rect(box.x + m.dx, box.y, box.w, box.h);
      ResolveDx(init, box, m);
      if AnyOverlap(init, shifted) {
        var j :| 0 <= j < |init| && Overlaps(init[j], shifted);
        assert tiles[j] == init[j];
      } else if AnyOverlap(tiles, shifted) {
        var j :| 0 <= j < |tiles| && Overlaps(tiles[j], shifted);
        assert j == |tiles| - 1;
      } else {
        assert !Overlaps(tiles[|tiles| - 1], shifted);
      }
    }
  }

  /** The resolved vertical result for a first hit on `t`, as the branch on vel_y's sign computes it. */
  function Landed(t: Rect, box: Rect, m: Motion): Motion
    requires m.velY != 0
  {
    if m.velY < 0 then Motion(m.dx, t.Bottom() - box.y, 0, m.inJump)
    else Motion(m.dx, t.y - box.Bottom(), 0, false)
  }

  /**
   * The first tile that overlaps the vertically moved box decides dy and zeroes
   * vel_y; after that no tile changes dy or vel_y again. With vel_y 0 or no
   * such tile, both stay as they were.
   */
  lemma {:induction false} ResolveVertical(tiles: seq<Rect>, box: Rect, m: Motion)
    ensures var r := Resolve(tiles, box, m);
      var i := FirstHit(tiles, Rect(box.x, box.y + m.dy, box.w, box.h));
      if m.velY == 0 || i < 0 then r.dy == m.dy && r.velY == m.velY
      else r.dy == Landed(tiles[i], box, m).dy && r.velY == 0
  {
    if |tiles| > 0 {
      var init := tiles[..|tiles| - 1];
      var t := tiles[|tiles| - 1];
      var moved := Rect(box.x, box.y + m.dy, box.w, box.h);
      ResolveVertical(init, box, m);
      var i0 := FirstHit(init, moved);
      assert FirstHit(tiles, moved) == if i0 >= 0 then i0 else if Overlaps(t, moved) then |tiles| - 1 else -1;
      if i0 >= 0 {
        assert tiles[i0] == init[i0];
      }
    }
  }

  /** A hit from `from` on in a list with one more box: a hit before it, or the new box. */
  lemma HitFromSnoc(rs: seq<Rect>, t: Rect, b: Rect, from: int)
    requires 0 <= from <= |rs|
    ensures HitFrom(rs + [t], b, from) == (HitFrom(rs, b, from) || Overlaps(t, b))
  {
    var ts := rs + [t];
    if HitFrom(ts, b, from) && !Overlaps(t, b) {
      var j :| from <= j < |ts| && 0 <= j && Overlaps(ts[j], b);
      assert j < |rs| && rs[j] == ts[j];
    }
    if HitFrom(rs, b, from) {
      var j :| from <= j < |rs| && 0 <= j && Overlaps(rs[j], b);
      assert ts[j] == rs[j];
    }
    if Overlaps(t, b) {
      assert ts[|rs|] == t;
    }
  }

  /**
   * in_jump at the end of the scan: when the player lands on tile `i`, only a
   * probe hit at `i` or later sets it again; otherwise any probe hit sets it
   * and nothing clears it.
   */
  lemma {:induction false} ResolveInJump(tiles: seq<Rect>, box: Rect, m: Motion)
    ensures var r := Resolve(tiles, box, m);
      var i := FirstHit(tiles, Rect(box.x, box.y + m.dy, box.w, box.h));
      var probe := Rect(box.x, box.y, box.w, 0);
      if m.velY > 0 && i >= 0 then r.inJump == HitFrom(tiles, probe, i)
      else r.inJump == (m.inJump || HitFrom(tiles, probe, 0))
  {
    if |tiles| > 0 {
      var init := tiles[..|tiles| - 1];
      var t := tiles[|tiles| - 1];
      var k := |tiles| - 1;
      var moved := Rect(box.x, box.y + m.dy, box.w, box.h);
      var probe := Rect(box.x, box.y, box.w, 0);
      ResolveInJump(init, box, m);
      ResolveVertical(init, box, m);
      var i0 := FirstHit(init, moved);
      assert FirstHit(tiles, moved) == if i0 >= 0 then i0 else if Overlaps(t, moved) then k else -1;
      forall from | 0 <= from <= k
        ensures HitFrom(tiles, probe, from) == (HitFrom(init, probe, from) || Overlaps(t, probe))
      {
        HitFromSnoc(init, t, probe, from);
        assert init + [t] == tiles;
      }
      if m.velY > 0 && i0 < 0 && Overlaps(t, moved) {
        assert !HitFrom(init, probe, k);
      }
    }
  }

  // ---------------------------------------------------------------------------
  // One tick

  /** The keypress handler's jump: the impulse only applies while not in a jump. */
  function Launch(p: PlayerState, keys: Keys, phys: Physics): (int, bool) {
    if keys.jump && !p.inJump then (phys.jump, true) else (p.velY, p.inJump)
  }

  /** dx from the arrow keys: left subtracts the speed, right adds it. */
  function Walk(keys: Keys, phys: Physics): int {
    (if keys.left then -phys.speed else 0) + (if keys.right then phys.speed else 0)
  }

  /** Gravity with the terminal-velocity clamp. */
  function Fall(velY: int, phys: Physics): (v: int)
    ensures v <= phys.terminal
    ensures v == velY + phys.gravity || v == phys.terminal
    ensures velY + phys.gravity <= phys.terminal ==> v == velY + phys.gravity
  {
    if velY + phys.gravity > phys.terminal then phys.terminal else velY + phys.gravity
  }

  /** The screen borders applied after the move. */
  function Clamp(x: int, y: int): (p: Pos)
    ensures 0 <= p.x <= DisplayWidth - TileSize
    ensures p.y + PlayerHeight <= DisplayHeight
    ensures 0 < x < DisplayWidth - TileSize ==> p.x == x
    ensures y + PlayerHeight <= DisplayHeight ==> p.y == y
  {
    var y1 := if y + PlayerHeight > DisplayHeight then DisplayHeight - PlayerHeight else y;
    var x1 := if x <= 0 then 0 else x;
    var x2 := if x1 >= DisplayWidth - TileSize then DisplayWidth - TileSize else x1;
    Pos(x2, y1)
  }

  /** spritecollide with dokill: the coins that do not overlap `box`, in group order. */
  function Untouched(cs: seq<Rect>, box: Rect): (kept: seq<Rect>)
    ensures |kept| <= |cs|
  {
    if |cs| == 0 then []
    else Untouched(cs[..|cs| - 1], box) + (if Overlaps(cs[|cs| - 1], box) then [] else [cs[|cs| - 1]])
  }

  /** The motion the collision scan starts from: walk dx, dy equal to the new vel_y, in_jump after the keys. */
  function StartMotion(p: PlayerState, keys: Keys, phys: Physics): Motion {
    var (v0, j0) := Launch(p, keys, phys);
    var v1 := Fall(v0, phys);
    Motion(Walk(keys, phys), v1, v1, j0)
  }

  /** After the collision scan vel_y is either the value gravity left or 0, so it never exceeds the terminal velocity. */
  lemma VelocityBound(p: PlayerState, keys: Keys, phys: Physics, tiles: seq<Rect>)
    requires phys.Valid()
    ensures Resolve(tiles, BoxAt(p.x, p.y), StartMotion(p, keys, phys)).velY <= phys.terminal
  {
    ResolveVertical(tiles, BoxAt(p.x, p.y), StartMotion(p, keys, phys));
  }

  /** While in a jump the jump key changes nothing: the impulse needs in_jump to be false. */
  lemma JumpOnlyFromGround(p: PlayerState, keys: Keys, phys: Physics)
    requires p.inJump
    ensures StartMotion(p, keys, phys) == StartMotion(p, keys.(jump := false), phys)
  {
  }

  /** Pressing jump on the ground starts the scan from the impulse plus one step of gravity, in a jump. */
  lemma JumpImpulse(p: PlayerState, keys: Keys, phys: Physics)
    requires keys.jump && !p.inJump
    ensures StartMotion(p, keys, phys).velY == Fall(phys.jump, phys)
    ensures StartMotion(p, keys, phys).inJump
  {
  }

  /** The coins kept are exactly those that miss the box; some coin is removed exactly when one overlaps. */
  lemma {:induction false} UntouchedExact(cs: seq<Rect>, box: Rect)
    ensures forall r :: r in Untouched(cs, box) <==> r in cs && !Overlaps(r, box)
    ensures |Untouched(cs, box)| == |cs| <==> !AnyOverlap(cs, box)
  {
    if |cs| > 0 {
      var init := cs[..|cs| - 1];
      var last := cs[|cs| - 1];
      UntouchedExact(init, box);
      assert cs == init + [last];
      if AnyOverlap(init, box) {
        var j :| 0 <= j < |init| && Overlaps(init[j], box);
        assert cs[j] == init[j];
      }
      if AnyOverlap(cs, box) && !Overlaps(last, box) {
        var j :| 0 <= j < |cs| && Overlaps(cs[j], box);
        assert init[j] == cs[j];
      }
    }
  }

  // ---------------------------------------------------------------------------
  // The player object

  /** main.py Player, restricted to the fields the game logic reads and writes. */
  class Player {
    var x: int
    var y: int
    var velY: int
    var inJump: bool
    var coins: int
    var overallCoins: int
    var hp: int
    var dead: bool
    const phys: Physics

    function State(): PlayerState
      reads this
    {
      PlayerState(x, y, velY, inJump, coins, dead)
    }

    constructor (x: int, y: int, phys: Physics)
      ensures State() == PlayerState(x, y, 0, false, 0, false)
      ensures hp == 5 && overallCoins == 0 && this.phys == phys
    {
      this.x, this.y := x, y;
      this.phys := phys;
      hp, dead := 5, false;
      velY, inJump := 0, false;
      coins, overallCoins := 0, 0;
    }

    /** Player.update against the world's tiles and sprite groups; overlapped coins leave the group. */
    method Update(keys: Keys, world: World)
      modifies this`x, this`y, this`velY, this`inJump, this`dead, this`coins, world`coins
      ensures var box := BoxAt(old(x), old(y));
        var m := Resolve(old(world.tileList), box, StartMotion(old(State()), keys, phys));
        && Pos(x, y) == Clamp(old(x) + m.dx, old(y) + m.dy)
        && velY == m.velY && inJump == m.inJump
        && dead == (old(dead) || world.EnemyHit(box) || AnyOverlap(old(world.lava), box))
        && coins == (if AnyOverlap(old(world.coins), box) then old(coins) + 1 else old(coins))
        && world.coins == Untouched(old(world.coins), box)
      ensures hp == old(hp) && overallCoins == old(overallCoins)
    {
      var box := BoxAt(x, y);
      var dx, dy := Steer(keys, world.tileList);
      CollideSprites(world, box);
      MoveBy(dx, dy);
    }

    /** The keys and gravity, then the collision loop over the tiles: the shift the player moves by. */
    method Steer(keys: Keys, tiles: seq<Rect>) returns (dx: int, dy: int)
      modifies this`velY, this`inJump
      ensures Motion(dx, dy, velY, inJump) == Resolve(tiles, BoxAt(x, y), StartMotion(old(State()), keys, phys))
    {
      dx, dy := Accelerate(keys);
      dx, dy := CollideTiles(tiles, dx, dy);
    }

    /** The keypress handler and gravity: the jump impulse, dx from the arrow keys, then dy from vel_y. */
    method Accelerate(keys: Keys) returns (dx: int, dy: int)
      modifies this`velY, this`inJump
      ensures Motion(dx, dy, velY, inJump) == StartMotion(old(State()), keys, phys)
    {
      dx, dy := 0, 0;
      if keys.jump && !inJump {
        velY := phys.jump;
        inJump := true;
      }
      if keys.left {
        dx := dx - phys.speed;
      }
      if keys.right {
        dx := dx + phys.speed;
      }
      velY := velY + phys.gravity;
      if velY > phys.terminal {
        velY := phys.terminal;
      }
      dy := dy + velY;
    }

    /** Death and coin collection, tested against the box before the move; overlapped coins leave the group. */
    method CollideSprites(world: World, box: Rect)
      modifies this`dead, this`coins, world`coins
      ensures dead == (old(dead) || world.EnemyHit(box) || AnyOverlap(world.lava, box))
      ensures coins == (if AnyOverlap(old(world.coins), box) then old(coins) + 1 else old(coins))
      ensures world.coins == Untouched(old(world.coins), box)
    {
      if world.EnemyHit(box) || AnyOverlap(world.lava, box) {
        dead := true;
      }
      if AnyOverlap(world.coins, box) {
        coins := coins + 1;
      }
      world.coins := Untouched(world.coins, box);
    }

    /** The move by (dx, dy), then the bottom, left and right screen borders. */
    method MoveBy(dx: int, dy: int)
      modifies this`x, this`y
      ensures Pos(x, y) == Clamp(old(x) + dx, old(y) + dy)
    {
      x := x + dx;
      y := y + dy;
      if y + PlayerHeight > DisplayHeight {
        y := DisplayHeight - PlayerHeight;
      }
      if x <= 0 {
        x := 0;
      }
      if x >= DisplayWidth - TileSize {
        x := DisplayWidth - TileSize;
      }
    }

    /** The collision loop of Player.update: dx and dy are threaded through, vel_y and in_jump are fields. */
    method CollideTiles(tiles: seq<Rect>, dx0: int, dy0: int) returns (dx: int, dy: int)
      modifies this`velY, this`inJump
      ensures Motion(dx, dy, velY, inJump) == Resolve(tiles, BoxAt(x, y), Motion(dx0, dy0, old(velY), old(inJump)))
    {
      dx, dy := dx0, dy0;
      var box := BoxAt(x, y);
      ghost var m0 := Motion(dx0, dy0, velY, inJump);
      var i := 0;
      while i < |tiles|
        invariant 0 <= i <= |tiles|
        invariant Motion(dx, dy, velY, inJump) == Resolve(tiles[..i], box, m0)
      {
        dx, dy := CollideTile(tiles[i], dx, dy);
        assert tiles[..i + 1][..i] == tiles[..i];
        i := i + 1;
      }
      assert tiles[..i] == tiles;
    }

    /** One pass of the collision loop's body, against tile `t`. */
    method CollideTile(t: Rect, dx0: int, dy0: int) returns (dx: int, dy: int)
      modifies this`velY, this`inJump
      ensures Motion(dx, dy, velY, inJump) == TileStep(t, BoxAt(x, y), Motion(dx0, dy0, old(velY), old(inJump)))
    {
      dx, dy := dx0, dy0;
      if Overlaps(t, Rect(x + dx, y, PlayerWidth, PlayerHeight)) {
        dx := 0;
      }
      if Overlaps(t, Rect(x, y + dy, PlayerWidth, PlayerHeight)) {
        if velY < 0 {
          dy := t.Bottom() - y;
          velY := 0;
        } else if velY > 0 {
          inJump := false;
          dy := t.y - BoxAt(x, y).Bottom();
          velY := 0;
        }
      }
      if Overlaps(t, Rect(x, y, PlayerWidth, 0)) {
        inJump := true;
      }
    }
  }
}
