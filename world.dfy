/**
 * The game's world (main.py): the rebuild scan that turns a level grid into the
 * collision tiles, the enemy, lava and coin sprites, the start point and the
 * finish box; the coin-only restart; and the enemies' patrol.
 */
module GameWorld {
  import opened Common
  import opened Geometry
  import opened Grid

  const DisplayWidth := 700
  const DisplayHeight := 700
  /** display_width // 20 */
  const TileSize := 35

  // ---------------------------------------------------------------------------
  // Where the rebuild places each kind of sprite

  /** The start point after a rebuild: the last start marker scanned, or the previous start. */
  function StartOf(cs: seq<Cell>, prev: Pos, ts: int): Pos {
    var i := LastIndex(cs, Start);
    if i < 0 then prev else Pos(cs[i].col * ts, cs[i].row * ts)
  }

  /** The `finish` coordinates after a rebuild: the last exit cell scanned, or the previous ones. */
  function FinishPos(cs: seq<Cell>, prev: Pos, ts: int): Pos {
    var i := LastIndex(cs, Exit);
    if i < 0 then prev else Pos(cs[i].col * ts, cs[i].row * ts)
  }

  /**
   * The finish box after a rebuild. Its size is that of the last ground image,
   * a tile square, and it sits one tile above the last exit cell scanned.
   */
  function FinishBox(cs: seq<Cell>, prev: Option<Rect>, ts: int): Option<Rect> {
    var i := LastIndex(cs, Exit);
    if i < 0 then prev else Some(Rect(cs[i].col * ts, cs[i].row * ts - ts, ts, ts))
  }

  datatype WorldError =
    | ImageUnbound   // an exit cell is scanned before any ground cell has set `img`
    | NoFinish       // drawing while `finish_data` is still empty

  // ---------------------------------------------------------------------------
  // Enemy patrol

  /** A blob's patrol state: x offset from its spawn, direction, step counter. */
  datatype Patrol = Patrol(offset: int, dir: int, counter: int)

  const SpawnPatrol := Patrol(0, 1, 0)

  /** One tick: move one pixel, count, and turn round once the counter passes 50 either way. */
  function PatrolStep(p: Patrol): Patrol {
    var c := p.counter + 1;
    if c > 50 || c < -50 then Patrol(p.offset + p.dir, -p.dir, -c)
    else Patrol(p.offset + p.dir, p.dir, c)
  }

  function PatrolAfter(p: Patrol, n: nat): Patrol {
    if n == 0 then p else PatrolStep(PatrolAfter(p, n - 1))
  }

  /** What every tick keeps: a unit direction, a bounded counter, and offset = direction * counter. */
  predicate PatrolInv(p: Patrol) {
    (p.dir == 1 || p.dir == -1) && -51 <= p.counter <= 50 && p.offset == Along(p.dir, p.counter)
  }

  /** `n` pixels in direction `dir` (1 is right, -1 is left): dir * n for a unit direction. */
  function Along(dir: int, n: int): int {
    if dir == 1 then n else -n
  }

  lemma PatrolStepKeepsInv(p: Patrol)
    requires PatrolInv(p)
    ensures PatrolInv(PatrolStep(p))
  {
  }

  /** A blob never strays more than 51 pixels from where it spawned. */
  lemma {:induction false} PatrolBounded(n: nat)
    ensures PatrolInv(PatrolAfter(SpawnPatrol, n))
    ensures -51 <= PatrolAfter(SpawnPatrol, n).offset <= 51
  {
    if n > 0 {
      PatrolBounded(n - 1);
      PatrolStepKeepsInv(PatrolAfter(SpawnPatrol, n - 1));
    }
  }

  /** Until the counter passes 50, each tick moves one pixel in the same direction. */
  lemma {:induction false} PatrolRun(p: Patrol, k: nat)
    requires PatrolInv(p) && p.counter + k <= 50
    ensures PatrolAfter(p, k) == Patrol(p.offset + Along(p.dir, k), p.dir, p.counter + k)
  {
    if k > 0 {
      PatrolRun(p, k - 1);
    }
  }

  /** From any state, the blob turns round on the tick after its counter reaches 50, 51 pixels from its spawn. */
  lemma {:induction false} PatrolTurn(p: Patrol, k: nat)
    requires PatrolInv(p) && p.counter + k == 50
    ensures PatrolAfter(p, k + 1) == Patrol(Along(p.dir, 51), -p.dir, -51)
  {
    PatrolRun(p, k);
  }

  /** The first leg lasts 51 ticks. */
  lemma PatrolFirstLeg()
    ensures forall n: nat :: n < 51 ==> PatrolAfter(SpawnPatrol, n).dir == 1
    ensures PatrolAfter(SpawnPatrol, 51) == Patrol(51, -1, -51)
  {
    forall n: nat | n < 51 ensures PatrolAfter(SpawnPatrol, n).dir == 1 {
      PatrolRun(SpawnPatrol, n);
    }
    PatrolTurn(SpawnPatrol, 50);
  }

  /** Every later leg, which starts with the counter at -51, lasts 102 ticks. */
  lemma PatrolLaterLeg(p: Patrol)
    requires PatrolInv(p) && p.counter == -51
    ensures forall n: nat :: n < 102 ==> PatrolAfter(p, n).dir == p.dir
    ensures PatrolAfter(p, 102) == Patrol(Along(p.dir, 51), -p.dir, -51)
  {
    forall n: nat | n < 102 ensures PatrolAfter(p, n).dir == p.dir {
      PatrolRun(p, n);
    }
    PatrolTurn(p, 101);
  }

  /** A blob sprite (main.py Enemy). */
  class Enemy {
    var x: int
    const y: int
    const size: int
    ghost const spawnX: int
    var moveDirection: int
    var moveCounter: int

    ghost function State(): Patrol
      reads this
    {
      Patrol(x - spawnX, moveDirection, moveCounter)
    }

    ghost predicate Valid()
      reads this
    {
      PatrolInv(State())
    }

    function Box(): Rect
      reads this
    {
      Rect(x, y, size, size)
    }

    constructor (x: int, y: int, tileSize: int)
      ensures Box() == Rect(x, y, tileSize, tileSize)
      ensures spawnX == x && State() == SpawnPatrol && Valid()
    {
      this.x := x;
      this.y := y;
      this.size := tileSize;
      this.spawnX := x;
      this.moveDirection := 1;
      this.moveCounter := 0;
    }

    /** Enemy.update: one patrol tick. */
    method Update()
      requires Valid()
      modifies this
      ensures Valid()
      ensures x == old(x) + old(moveDirection)
      ensures State() == PatrolStep(old(State()))
    {
      x := x + moveDirection;
      moveCounter := moveCounter + 1;
      if moveCounter > 50 || moveCounter < -50 {
        moveDirection := -moveDirection;
        moveCounter := -moveCounter;
      }
    }
  }

  // ---------------------------------------------------------------------------
  // The world object

  /** main.py World, together with the three sprite groups it empties and refills. */
  class World {
    var tileList: seq<Rect>
    var enemies: seq<Enemy>
    var lava: seq<Rect>
    var coins: seq<Rect>
    var start: Pos
    var finish: Pos
    /** The rectangle of `finish_data`; None while `finish_data` is still the empty list. */
    var finishBox: Option<Rect>

    ghost predicate Valid()
      reads this, enemies
    {
      && (forall i :: 0 <= i < |enemies| ==> enemies[i].Valid())
      && (forall i, j :: 0 <= i < j < |enemies| ==> enemies[i] != enemies[j])
    }

    /** The boxes of the enemy sprites, in group order. */
    function EnemyBoxes(): (bs: seq<Rect>)
      reads this, enemies
      ensures |bs| == |enemies| && forall i :: 0 <= i < |enemies| ==> bs[i] == enemies[i].Box()
    {
      seq(|enemies|, i requires 0 <= i < |enemies| reads this, enemies => enemies[i].Box())
    }

    /** spritecollide against the enemy group: some blob's box overlaps `b`. */
    predicate EnemyHit(b: Rect)
      reads this`enemies, enemies
    {
      exists i :: 0 <= i < |enemies| && Overlaps(enemies[i].Box(), b)
    }

    constructor ()
      ensures tileList == [] && enemies == [] && lava == [] && coins == []
      ensures start == Pos(0, 0) && finish == Pos(0, 0) && finishBox == None
      ensures Valid()
    {
      tileList, enemies, lava, coins := [], [], [], [];
      start, finish, finishBox := Pos(0, 0), Pos(0, 0), None;
    }

    /**
     * What the sprite groups and markers hold after scanning the cells `P` from
     * a world whose markers were `start0`, `finish0` and `box0`, with `img` the
     * image of the last ground cell.
     */
    ghost predicate Built(P: seq<Cell>, start0: Pos, finish0: Pos, box0: Option<Rect>, img: Option<(int, int)>)
      reads this, enemies
    {
      && Snap(img) == Expected(P, start0, finish0, box0)
      && Spawned(enemies, Emit(P, EnemySel(TileSize)))
      && !ExitBeforeGround(P)
    }

    /** The lists and markers, with the scan's `img`. */
    function Snap(img: Option<(int, int)>): Snapshot
      reads this
    {
      Snapshot(tileList, lava, coins, start, finish, finishBox, img)
    }

    /**
     * World.update. With `changesMade` it rebuilds everything from `g` in one
     * row-major scan; without it, it only draws, which needs a finish box.
     * An error stands for the exception that ends the program; the state it
     * leaves behind is not specified.
     */
    method Update(changesMade: bool, g: Grid) returns (err: Option<WorldError>)
      modifies this
      ensures !changesMade ==> unchanged(this) && (err == None <==> finishBox.Some?)
      ensures !changesMade ==> err.Some? ==> err == Some(NoFinish)
      ensures changesMade ==> (err == None <==> !ExitBeforeGround(CellsOf(g)))
      ensures changesMade && err.Some? ==> err == Some(ImageUnbound)
      ensures changesMade && err == None ==>
        && tileList == Emit(CellsOf(g), GroundSel(TileSize))
        && EnemyBoxes() == Emit(CellsOf(g), EnemySel(TileSize))
        && (forall e :: e in enemies ==> fresh(e))
        && (forall i :: 0 <= i < |enemies| ==> enemies[i].State() == SpawnPatrol)
        && Valid()
        && lava == Emit(CellsOf(g), LavaSel(TileSize))
        && coins == Emit(CellsOf(g), CoinSel(TileSize))
        && start == StartOf(CellsOf(g), old(start), TileSize)
        && finish == FinishPos(CellsOf(g), old(finish), TileSize)
        && finishBox == FinishBox(CellsOf(g), old(finishBox), TileSize)
    {
      if !changesMade {
        err := if finishBox.None? then Some(NoFinish) else None;
        return;
      }
      var ok := Rebuild(g);
      if ok {
        SpawnedGroup(Emit(CellsOf(g), EnemySel(TileSize)));
      }
      err := if ok then None else Some(ImageUnbound);
    }

    /** The rebuilding half of World.update: empty the groups, then scan `g` row by row. */
    method Rebuild(g: Grid) returns (ok: bool)
      modifies this
      ensures ok <==> !ExitBeforeGround(CellsOf(g))
      ensures ok ==> Built(CellsOf(g), old(start), old(finish), old(finishBox), if HasGround(CellsOf(g)) then Some((TileSize, TileSize)) else None)
      ensures ok ==> forall e :: e in enemies ==> fresh(e)
    {
      tileList, enemies, lava, coins := [], [], [], [];
      ghost var start0, finish0, box0 := start, finish, finishBox;
      var img: Option<(int, int)> := None;
      var r := 0;
      while r < |g|
        invariant 0 <= r <= |g|
        invariant Built(CellsOf(g[..r]), start0, finish0, box0, img)
        invariant forall e :: e in enemies ==> fresh(e)
      {
        img, ok := ScanRow(g, r, img, start0, finish0, box0);
        if !ok {
          CellsOfPrefix(g, r + 1);
          ExitBeforeGroundExtends(CellsOf(g[..r + 1]), CellsOf(g));
          return;
        }
        r := r + 1;
      }
      assert g[..|g|] == g;
      ok := true;
    }

    /** One row of the scan, cell by cell from the left. */
    method ScanRow(g: Grid, r: int, img: Option<(int, int)>, ghost start0: Pos, ghost finish0: Pos, ghost box0: Option<Rect>)
        returns (img': Option<(int, int)>, ok: bool)
      requires 0 <= r < |g|
      requires Built(CellsOf(g[..r]), start0, finish0, box0, img)
      modifies this
      ensures ok <==> !ExitBeforeGround(CellsOf(g[..r + 1]))
      ensures ok ==> Built(CellsOf(g[..r + 1]), start0, finish0, box0, img')
      ensures ok ==> forall e :: e in enemies ==> e in old(enemies) || fresh(e)
    {
      var c := 0;
      img' := img;
      assert g[r][..0] == [];
      assert Scanned(g, r, 0) == CellsOf(g[..r]);
      while c < |g[r]|
        invariant 0 <= c <= |g[r]|
        invariant Built(Scanned(g, r, c), start0, finish0, box0, img')
        invariant forall e :: e in enemies ==> e in old(enemies) || fresh(e)
      {
        ghost var P := Scanned(g, r, c);
        var cell := Cell(r, c, g[r][c]);
        ScanNext(g, r, c);
        img', ok := ScanCell(cell, img', P, start0, finish0, box0);
        if !ok {
          ScannedInRow(g, r, c + 1);
          ExitBeforeGroundExtends(P + [cell], CellsOf(g[..r + 1]));
          return;
        }
        c := c + 1;
      }
      ScanRowDone(g, r);
      ok := true;
    }

    /** The body of the scan loop for one cell: the tests on its code, in the source's order. */
    method ScanCell(cell: Cell, img: Option<(int, int)>, ghost P: seq<Cell>, ghost start0: Pos, ghost finish0: Pos,
                    ghost box0: Option<Rect>) returns (img': Option<(int, int)>, ok: bool)
      requires Built(P, start0, finish0, box0, img)
      modifies this
      ensures ok <==> !ExitBeforeGround(P + [cell])
      ensures ok ==> Built(P + [cell], start0, finish0, box0, img')
      ensures ok ==> forall e :: e in enemies ==> e in old(enemies) || fresh(e)
    {
      var tile := cell.code;
      img', ok := img, true;
      // The source tests the codes one after another; they are exclusive, so one branch runs.
      if tile == Start {
        SetStart(cell, P, start0, finish0, box0, img);
      } else if tile == Dirt || tile == Grass {
        img' := AddTile(cell, P, start0, finish0, box0, img);
      } else if tile == Blob {
        AddBlob(cell, P, start0, finish0, box0, img);
      } else if tile == Lava {
        AddLava(cell, P, start0, finish0, box0, img);
      } else if tile == Coin {
        AddCoin(cell, P, start0, finish0, box0, img);
      } else if tile == Exit {
        ok := SetFinish(cell, img, P, start0, finish0, box0);
      } else {
        SkipCell(cell, P, start0, finish0, box0, img);
      }
    }

    /** The group's blobs sit on `boxes`, one each, all distinct, valid and at the start of their patrol. */
    static ghost predicate Spawned(es: seq<Enemy>, boxes: seq<Rect>)
      reads es
    {
      && |es| == |boxes|
      && (forall i :: 0 <= i < |es| ==> es[i].Box() == boxes[i] && es[i].Valid() && es[i].State() == SpawnPatrol)
      && (forall i, j :: 0 <= i < j < |es| ==> es[i] != es[j])
    }

    lemma SpawnedGroup(boxes: seq<Rect>)
      requires Spawned(enemies, boxes)
      ensures EnemyBoxes() == boxes && Valid() && forall i :: 0 <= i < |enemies| ==> enemies[i].State() == SpawnPatrol
    {
    }

    /** A cell whose code the build ignores changes nothing. */
    lemma SkipCell(cell: Cell, P: seq<Cell>, start0: Pos, finish0: Pos, box0: Option<Rect>, img: Option<(int, int)>)
      requires Built(P, start0, finish0, box0, img)
      requires cell.code !in {Start, Dirt, Grass, Blob, Lava, Coin, Exit}
      ensures Built(P + [cell], start0, finish0, box0, img)
    {
      ExpectedSnoc(P, cell, start0, finish0, box0);
    }

    method SetStart(cell: Cell, ghost P: seq<Cell>, ghost start0: Pos, ghost finish0: Pos, ghost box0: Option<Rect>,
                    ghost img: Option<(int, int)>)
      requires Built(P, start0, finish0, box0, img) && cell.code == Start
      modifies this`start
      ensures Built(P + [cell], start0, finish0, box0, img)
    {
      ExpectedSnoc(P, cell, start0, finish0, box0);
      start := Pos(cell.col * TileSize, cell.row * TileSize);
    }

    method AddTile(cell: Cell, ghost P: seq<Cell>, ghost start0: Pos, ghost finish0: Pos, ghost box0: Option<Rect>,
                   ghost img: Option<(int, int)>) returns (img': Option<(int, int)>)
      requires Built(P, start0, finish0, box0, img) && IsGround(cell.code)
      modifies this`tileList
      ensures Built(P + [cell], start0, finish0, box0, img')
    {
      ExpectedSnoc(P, cell, start0, finish0, box0);
      img' := Some((TileSize, TileSize));
      tileList := tileList + [Rect(cell.col * TileSize, cell.row * TileSize, TileSize, TileSize)];
    }

    method AddBlob(cell: Cell, ghost P: seq<Cell>, ghost start0: Pos, ghost finish0: Pos, ghost box0: Option<Rect>,
                   ghost img: Option<(int, int)>)
      requires Built(P, start0, finish0, box0, img) && cell.code == Blob
      modifies this`enemies
      ensures Built(P + [cell], start0, finish0, box0, img)
      ensures forall e :: e in enemies ==> e in old(enemies) || fresh(e)
    {
      ExpectedSnoc(P, cell, start0, finish0, box0);
      ghost var boxes := Emit(P, EnemySel(TileSize));
      var blob := new Enemy(cell.col * TileSize, cell.row * TileSize, TileSize);
      assert Spawned(enemies, boxes);
      enemies := enemies + [blob];
      assert Spawned(enemies, boxes + [blob.Box()]);
    }

    method AddLava(cell: Cell, ghost P: seq<Cell>, ghost start0: Pos, ghost finish0: Pos, ghost box0: Option<Rect>,
                   ghost img: Option<(int, int)>)
      requires Built(P, start0, finish0, box0, img) && cell.code == Lava
      modifies this`lava
      ensures Built(P + [cell], start0, finish0, box0, img)
    {
      ExpectedSnoc(P, cell, start0, finish0, box0);
      lava := lava + [Rect(cell.col * TileSize, cell.row * TileSize + TileSize / 2, TileSize, TileSize / 2 + 5)];
    }

    method AddCoin(cell: Cell, ghost P: seq<Cell>, ghost start0: Pos, ghost finish0: Pos, ghost box0: Option<Rect>,
                   ghost img: Option<(int, int)>)
      requires Built(P, start0, finish0, box0, img) && cell.code == Coin
      modifies this`coins
      ensures Built(P + [cell], start0, finish0, box0, img)
    {
      ExpectedSnoc(P, cell, start0, finish0, box0);
      coins := coins + [Rect(cell.col * TileSize, cell.row * TileSize, TileSize, TileSize)];
    }

    /** An exit cell: its box takes the size of `img`, which fails while no ground tile has been built. */
    method SetFinish(cell: Cell, img: Option<(int, int)>, ghost P: seq<Cell>, ghost start0: Pos, ghost finish0: Pos,
                     ghost box0: Option<Rect>) returns (ok: bool)
      requires Built(P, start0, finish0, box0, img) && cell.code == Exit
      modifies this`finish, this`finishBox
      ensures ok <==> !ExitBeforeGround(P + [cell])
      ensures ok ==> Built(P + [cell], start0, finish0, box0, img)
    {
      ExpectedSnoc(P, cell, start0, finish0, box0);
      if img.None? {
        return false;
      }
      var size := img.value;
      finishBox := Some(Rect(cell.col * TileSize, cell.row * TileSize - TileSize, size.0, size.1));
      finish := Pos(cell.col * TileSize, cell.row * TileSize);
      ok := true;
    }

    /** World.restart: refill only the coin group, from the grid the main loop holds. */
    method Restart(g: Grid)
      modifies this`coins
      ensures coins == Emit(CellsOf(g), CoinSel(TileSize))
    {
      coins := [];
      var r := 0;
      while r < |g|
        invariant 0 <= r <= |g|
        invariant coins == Emit(CellsOf(g[..r]), CoinSel(TileSize))
      {
        var c := 0;
        assert g[r][..0] == [];
        assert Scanned(g, r, 0) == CellsOf(g[..r]);
        while c < |g[r]|
          invariant 0 <= c <= |g[r]|
          invariant coins == Emit(Scanned(g, r, c), CoinSel(TileSize))
        {
          ghost var P := Scanned(g, r, c);
          ScanNext(g, r, c);
          EmitSnoc(P, Cell(r, c, g[r][c]), CoinSel(TileSize));
          if g[r][c] == Coin {
            coins := coins + [Rect(c * TileSize, r * TileSize, TileSize, TileSize)];
          }
          c := c + 1;
        }
        ScanRowDone(g, r);
        r := r + 1;
      }
      assert g[..|g|] == g;
    }

    /** enemies_group.update(): one patrol tick for every blob. */
    method UpdateEnemies()
      requires Valid()
      modifies set i | 0 <= i < |enemies| :: enemies[i]
      ensures Valid()
      ensures forall i :: 0 <= i < |enemies| ==> enemies[i].State() == PatrolStep(old(enemies[i].State()))
    {
      var i := 0;
      while i < |enemies|
        invariant 0 <= i <= |enemies|
        invariant Valid()
        invariant forall k :: 0 <= k < i ==> enemies[k].State() == PatrolStep(old(enemies[k].State()))
        invariant forall k :: i <= k < |enemies| ==> enemies[k].State() == old(enemies[k].State())
      {
        enemies[i].Update();
        i := i + 1;
      }
    }
  }

  /**
   * `World(screen, data, tile_size)`: the fields of a new world, then the
   * World.update that ends `__init__`, with the global `changes_made`.
   */
  method NewWorld(changesMade: bool, g: Grid) returns (w: World, err: Option<WorldError>)
    ensures fresh(w)
    ensures !changesMade ==> err == Some(NoFinish)
    ensures changesMade ==> (err == None <==> !ExitBeforeGround(CellsOf(g)))
    ensures changesMade && err.Some? ==> err == Some(ImageUnbound)
    ensures err == None ==>
      && w.tileList == Emit(CellsOf(g), GroundSel(TileSize))
      && w.EnemyBoxes() == Emit(CellsOf(g), EnemySel(TileSize))
      && (forall e :: e in w.enemies ==> fresh(e))
      && (forall i :: 0 <= i < |w.enemies| ==> w.enemies[i].State() == SpawnPatrol)
      && w.Valid()
      && w.lava == Emit(CellsOf(g), LavaSel(TileSize))
      && w.coins == Emit(CellsOf(g), CoinSel(TileSize))
      && w.start == StartOf(CellsOf(g), Pos(0, 0), TileSize)
      && w.finish == FinishPos(CellsOf(g), Pos(0, 0), TileSize)
      && w.finishBox == FinishBox(CellsOf(g), None, TileSize)
  {
    w := new World();
    err := w.Update(changesMade, g);
  }

  /** The World's tile, lava and coin lists and its markers, with the image the scan last bound. */
  datatype Snapshot = Snapshot(tiles: seq<Rect>, lava: seq<Rect>, coins: seq<Rect>,
                               start: Pos, finish: Pos, finishBox: Option<Rect>, img: Option<(int, int)>)

  /** What a scan of the cells `P` leaves in the lists and markers. */
  function Expected(P: seq<Cell>, start0: Pos, finish0: Pos, box0: Option<Rect>): Snapshot {
    Snapshot(Emit(P, GroundSel(TileSize)), Emit(P, LavaSel(TileSize)), Emit(P, CoinSel(TileSize)),
             StartOf(P, start0, TileSize), FinishPos(P, finish0, TileSize), FinishBox(P, box0, TileSize),
             if HasGround(P) then Some((TileSize, TileSize)) else None)
  }

  /** The scan's work for one cell, by its code. */
  function Advance(e: Snapshot, cell: Cell): Snapshot {
    var x, y := cell.col * TileSize, cell.row * TileSize;
    if cell.code == Start then e.(start := Pos(x, y))
    else if IsGround(cell.code) then e.(tiles := e.tiles + [Rect(x, y, TileSize, TileSize)], img := Some((TileSize, TileSize)))
    else if cell.code == Lava then e.(lava := e.lava + [Rect(x, y + TileSize / 2, TileSize, TileSize / 2 + 5)])
    else if cell.code == Coin then e.(coins := e.coins + [Rect(x, y, TileSize, TileSize)])
    else if cell.code == Exit then e.(finish := Pos(x, y), finishBox := Some(Rect(x, y - TileSize, TileSize, TileSize)))
    else e
  }

  lemma ExpectedSnoc(P: seq<Cell>, cell: Cell, start0: Pos, finish0: Pos, box0: Option<Rect>)
    ensures Expected(P + [cell], start0, finish0, box0) == Advance(Expected(P, start0, finish0, box0), cell)
    ensures Emit(P + [cell], EnemySel(TileSize)) == Emit(P, EnemySel(TileSize)) +
      (if cell.code == Blob then [Rect(cell.col * TileSize, cell.row * TileSize, TileSize, TileSize)] else [])
    ensures ExitBeforeGround(P + [cell]) == (ExitBeforeGround(P) || (cell.code == Exit && !HasGround(P)))
    ensures Expected(P, start0, finish0, box0).img.None? <==> !HasGround(P)
  {
    ScanSnoc(P, cell, start0, finish0, box0);
  }

  /** How one more scanned cell moves the markers and the image flag. */
  lemma ScanSnoc(P: seq<Cell>, cell: Cell, start0: Pos, finish0: Pos, box0: Option<Rect>)
    ensures StartOf(P + [cell], start0, TileSize) ==
      (if cell.code == Start then Pos(cell.col * TileSize, cell.row * TileSize) else StartOf(P, start0, TileSize))
    ensures FinishPos(P + [cell], finish0, TileSize) ==
      (if cell.code == Exit then Pos(cell.col * TileSize, cell.row * TileSize) else FinishPos(P, finish0, TileSize))
    ensures FinishBox(P + [cell], box0, TileSize) ==
      (if cell.code == Exit then Some(Rect(cell.col * TileSize, cell.row * TileSize - TileSize, TileSize, TileSize))
       else FinishBox(P, box0, TileSize))
    ensures HasGround(P + [cell]) == (HasGround(P) || IsGround(cell.code))
    ensures ExitBeforeGround(P + [cell]) == (ExitBeforeGround(P) || (cell.code == Exit && !HasGround(P)))
    ensures Emit(P + [cell], GroundSel(TileSize)) == Emit(P, GroundSel(TileSize)) +
      (if IsGround(cell.code) then [Rect(cell.col * TileSize, cell.row * TileSize, TileSize, TileSize)] else [])
    ensures Emit(P + [cell], EnemySel(TileSize)) == Emit(P, EnemySel(TileSize)) +
      (if cell.code == Blob then [Rect(cell.col * TileSize, cell.row * TileSize, TileSize, TileSize)] else [])
    ensures Emit(P + [cell], LavaSel(TileSize)) == Emit(P, LavaSel(TileSize)) +
      (if cell.code == Lava then [Rect(cell.col * TileSize, cell.row * TileSize + TileSize / 2, TileSize, TileSize / 2 + 5)] else [])
    ensures Emit(P + [cell], CoinSel(TileSize)) == Emit(P, CoinSel(TileSize)) +
      (if cell.code == Coin then [Rect(cell.col * TileSize, cell.row * TileSize, TileSize, TileSize)] else [])
  {
    assert (P + [cell])[..|P|] == P;
  }

  // ---------------------------------------------------------------------------
  // What a rebuild yields, stated over the grid

  /** One tile per ground cell, and one blob, lava and coin sprite per cell of code 3, 6 and 7. */
  lemma BuildCounts(g: Grid)
    ensures |Emit(CellsOf(g), GroundSel(TileSize))| == CountCodes(CellsOf(g), {Dirt, Grass})
    ensures |Emit(CellsOf(g), EnemySel(TileSize))| == CountCodes(CellsOf(g), {Blob})
    ensures |Emit(CellsOf(g), LavaSel(TileSize))| == CountCodes(CellsOf(g), {Lava})
    ensures |Emit(CellsOf(g), CoinSel(TileSize))| == CountCodes(CellsOf(g), {Coin})
  {
    var cs := CellsOf(g);
    EmitCount(cs, GroundSel(TileSize), {Dirt, Grass});
    EmitCount(cs, EnemySel(TileSize), {Blob});
    EmitCount(cs, LavaSel(TileSize), {Lava});
    EmitCount(cs, CoinSel(TileSize), {Coin});
  }

  /** A ground tile (dirt or grass) stands on each dirt or grass cell, and nowhere else. */
  lemma GroundPlacement(g: Grid)
    ensures forall r :: r in Emit(CellsOf(g), GroundSel(TileSize)) <==>
      exists c :: InGrid(g, c) && IsGround(c.code) && r == Rect(c.col * TileSize, c.row * TileSize, TileSize, TileSize)
  {
    EmitGrid(g, GroundSel(TileSize));
  }

  /** A blob spawns on each blob cell, and nowhere else. */
  lemma EnemyPlacement(g: Grid)
    ensures forall r :: r in Emit(CellsOf(g), EnemySel(TileSize)) <==>
      exists c :: InGrid(g, c) && c.code == Blob && r == Rect(c.col * TileSize, c.row * TileSize, TileSize, TileSize)
  {
    EmitGrid(g, EnemySel(TileSize));
  }

  /** Lava fills the lower half of each lava cell (and five pixels more), and nothing else is lava. */
  lemma LavaPlacement(g: Grid)
    ensures forall r :: r in Emit(CellsOf(g), LavaSel(TileSize)) <==>
      exists c :: InGrid(g, c) && c.code == Lava && r == LavaBox(c)
  {
    var sel := LavaSel(TileSize);
    EmitGrid(g, sel);
    forall r
      ensures r in Emit(CellsOf(g), sel) <==> exists c :: InGrid(g, c) && c.code == Lava && r == LavaBox(c)
    {
      if r in Emit(CellsOf(g), sel) {
        var c :| InGrid(g, c) && Select(sel, c) == Some(r);
        LavaSelAt(c, r);
      }
      if exists c :: InGrid(g, c) && c.code == Lava && r == LavaBox(c) {
        var c :| InGrid(g, c) && c.code == Lava && r == LavaBox(c);
        LavaSelAt(c, r);
      }
    }
  }

  /** The lava sprite of a lava cell. */
  function LavaBox(c: Cell): Rect {
    Rect(c.col * TileSize, c.row * TileSize + TileSize / 2, TileSize, TileSize / 2 + 5)
  }

  lemma LavaSelAt(c: Cell, r: Rect)
    ensures Select(LavaSel(TileSize), c) == Some(r) <==> c.code == Lava && r == LavaBox(c)
  {
  }

  /** A coin lies on each coin cell, and nowhere else. */
  lemma CoinPlacement(g: Grid)
    ensures forall r :: r in Emit(CellsOf(g), CoinSel(TileSize)) <==>
      exists c :: InGrid(g, c) && c.code == Coin && r == Rect(c.col * TileSize, c.row * TileSize, TileSize, TileSize)
  {
    EmitGrid(g, CoinSel(TileSize));
  }

  /** The tile list runs in row-major order: top to bottom, and left to right within a row. */
  lemma GroundTilesRowMajor(g: Grid)
    ensures var E := Emit(CellsOf(g), GroundSel(TileSize));
      forall k, l :: 0 <= k < l < |E| ==> E[k].y < E[l].y || (E[k].y == E[l].y && E[k].x < E[l].x)
  {
    var cs, P, E := CellsOf(g), Picked(CellsOf(g), GroundSel(TileSize)), Emit(CellsOf(g), GroundSel(TileSize));
    EmitGridOrder(g, GroundSel(TileSize));
    forall k, l | 0 <= k < l < |E| ensures E[k].y < E[l].y || (E[k].y == E[l].y && E[k].x < E[l].x) {
      var a, b := cs[P[k]], cs[P[l]];
      assert Before(a, b);
      assert E[k] == Rect(a.col * TileSize, a.row * TileSize, TileSize, TileSize);
      assert E[l] == Rect(b.col * TileSize, b.row * TileSize, TileSize, TileSize);
    }
  }

  /**
   * `start` after a rebuild: the position of the last start cell (-1) in
   * row-major order, or the previous start when the grid has none.
   */
  lemma StartMarker(g: Grid, prev: Pos)
    ensures (forall c :: InGrid(g, c) ==> c.code != Start) ==> StartOf(CellsOf(g), prev, TileSize) == prev
    ensures (exists c :: InGrid(g, c) && c.code == Start) ==>
      exists c :: LastCell(g, c, Start)
        && StartOf(CellsOf(g), prev, TileSize) == Pos(c.col * TileSize, c.row * TileSize)
  {
    LastInGrid(g, Start);
    var cs := CellsOf(g);
    var i := LastIndex(cs, Start);
    if i >= 0 {
      var c := cs[i];
      assert StartOf(cs, prev, TileSize) == Pos(c.col * TileSize, c.row * TileSize);
    }
  }

  /**
   * `finish` after a rebuild: the position of the last exit cell (8) in
   * row-major order, or the previous one when the grid has no exit.
   */
  lemma FinishMarker(g: Grid, prevPos: Pos)
    ensures (forall c :: InGrid(g, c) ==> c.code != Exit) ==> FinishPos(CellsOf(g), prevPos, TileSize) == prevPos
    ensures (exists c :: InGrid(g, c) && c.code == Exit) ==>
      exists c :: LastCell(g, c, Exit) && FinishPos(CellsOf(g), prevPos, TileSize) == Pos(c.col * TileSize, c.row * TileSize)
  {
    LastInGrid(g, Exit);
    var cs := CellsOf(g);
    var i := LastIndex(cs, Exit);
    if i >= 0 {
      var c := cs[i];
      assert FinishPos(cs, prevPos, TileSize) == Pos(c.col * TileSize, c.row * TileSize);
    }
  }

  /**
   * The finish box after a rebuild: a tile square one tile above `finish`
   * when the scan met an exit, the previous box otherwise.
   */
  lemma FinishBoxAbove(cs: seq<Cell>, prevPos: Pos, prevBox: Option<Rect>)
    ensures var p := FinishPos(cs, prevPos, TileSize);
      FinishBox(cs, prevBox, TileSize) ==
        if LastIndex(cs, Exit) < 0 then prevBox else Some(Rect(p.x, p.y - TileSize, TileSize, TileSize))
  {
  }
}
