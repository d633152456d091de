/**
 * The level editor's World (level_editor.py): the preview scan that turns the
 * level grid into sprite rectangles, and the two paint tools, the left mouse
 * button cycling a cell's code and the right mouse button toggling the start
 * and exit markers, each behind its own press latch.
 */
module EditorWorld {
  import opened Common
  import opened Geometry
  import opened Grid

  const ScreenWidth := 840
  const ScreenHeight := 700
  const TileSize := ScreenHeight / 20

  /** The codes a level may hold: empty, dirt, grass, blob, lava, coin, exit and start. */
  const Codes: set<int> := {Start, Empty, Dirt, Grass, Blob, Lava, Coin, Exit}

  // ---------------------------------------------------------------------------
  // Preview

  /** The sprite a cell gets in the preview: a tile at the cell, or two tiles tall raised by one tile. */
  predicate PreviewAt(c: Cell, r: Rect) {
    || (IsSquare(c.code) && r == Rect(c.col * TileSize, c.row * TileSize, TileSize, TileSize))
    || (IsTall(c.code) && r == Rect(c.col * TileSize, c.row * TileSize - TileSize, TileSize, 2 * TileSize))
  }

  lemma PreviewSelAt(c: Cell, r: Rect)
    ensures Select(PreviewSel(TileSize), c) == Some(r) <==> PreviewAt(c, r)
  {
  }

  /** Where the preview puts its sprites, cell by cell. */
  lemma PreviewPlacement(g: Grid)
    ensures forall r :: r in Emit(CellsOf(g), PreviewSel(TileSize)) <==> exists c :: InGrid(g, c) && PreviewAt(c, r)
  {
    var sel := PreviewSel(TileSize);
    EmitGrid(g, sel);
    forall r
      ensures r in Emit(CellsOf(g), sel) <==> exists c :: InGrid(g, c) && PreviewAt(c, r)
    {
      if r in Emit(CellsOf(g), sel) {
        var c :| InGrid(g, c) && Select(sel, c) == Some(r);
        PreviewSelAt(c, r);
      }
      if exists c :: InGrid(g, c) && PreviewAt(c, r) {
        var c :| InGrid(g, c) && PreviewAt(c, r);
        PreviewSelAt(c, r);
      }
    }
  }

  /** One preview sprite per cell whose code is drawn; empty cells and unknown codes draw nothing. */
  lemma PreviewCount(g: Grid)
    ensures |Emit(CellsOf(g), PreviewSel(TileSize))| == CountCodes(CellsOf(g), {Dirt, Grass, Blob, Lava, Coin, Exit, Start})
  {
    EmitCount(CellsOf(g), PreviewSel(TileSize), {Dirt, Grass, Blob, Lava, Coin, Exit, Start});
  }

  /** The preview sprites World.update appends for the cell at row `r`, column `c`. */
  method PreviewSprite(r: int, c: int, tile: int) returns (sprite: seq<Rect>)
    ensures sprite == Emitted(Select(PreviewSel(TileSize), Cell(r, c, tile)))
  {
    sprite := [];
    if tile == Dirt || tile == Grass || tile == Blob || tile == Lava || tile == Coin {
      sprite := sprite + [Rect(c * TileSize, r * TileSize, TileSize, TileSize)];
    }
    if tile == Exit || tile == Start {
      sprite := sprite + [Rect(c * TileSize, r * TileSize - TileSize, TileSize, 2 * TileSize)];
    }
  }

  // ---------------------------------------------------------------------------
  // Paint tools

  /** The part of the editor's World the paint tools read and write. */
  datatype Tools = Tools(data: Grid, blockChanged: bool, rightClick: bool,
                         startPos: seq<(int, int)>, finishPos: seq<(int, int)>, changesMade: bool)

  /** The IndexError of `self.data[dim1][dim2]` when the cursor is outside the grid. */
  datatype PaintError = OutOfRange(row: int, col: int)

  /** The largest x the edit area admits: as written (`pos[0] <= screen_height`), and as intended. */
  const AsWrittenMaxX := ScreenHeight
  const EditMaxX := ScreenHeight - 1

  /** The grid cell under the cursor, (row, column). */
  function Target(pos: Pos): (int, int) {
    (pos.y / TileSize, pos.x / TileSize)
  }

  predicate InRange(g: Grid, t: (int, int)) {
    0 <= t.0 < |g| && 0 <= t.1 < |g[t.0]|
  }

  function SetCell(g: Grid, t: (int, int), v: int): (h: Grid)
    requires InRange(g, t)
    ensures |h| == |g| && forall i :: 0 <= i < |g| ==> |h[i]| == |g[i]|
    ensures h[t.0][t.1] == v
    ensures forall i, j :: 0 <= i < |g| && 0 <= j < |g[i]| && (i, j) != t ==> h[i][j] == g[i][j]
  {
    g[t.0 := g[t.0][t.1 := v]]
  }

  /** The left-click cycle: the next code, skipping 4 and 5, and back to 0 after 7. */
  function Cycle(v: int): int {
    var w := v + 1;
    var w' := if w == 4 then 6 else w;
    if w' > 7 then 0 else w'
  }

  /** The right-click toggle: a start becomes an exit, any code from 0 to 8 becomes a start. */
  function Toggle(v: int): int {
    if v == Start then Exit
    else if 0 <= v <= 8 then Start
    else v
  }

  /** Append a coordinate unless it is already listed. */
  function AddOnce(xs: seq<(int, int)>, t: (int, int)): (ys: seq<(int, int)>)
    ensures t in ys && forall u :: u in ys <==> u in xs || u == t
    ensures t in xs ==> ys == xs
  {
    if t in xs then xs else xs + [t]
  }

  /** The left button at the target cell: cycle it once per press, and open the latch on release. */
  function LeftTool(s: Tools, t: (int, int), left: bool): Result<Tools, PaintError> {
    var r :=
      if left && !s.blockChanged then
        if !InRange(s.data, t) then Err(OutOfRange(t.0, t.1))
        else Ok(s.(data := SetCell(s.data, t, Cycle(s.data[t.0][t.1])), blockChanged := true))
      else Ok(s);
    if r.Err? || left then r else Ok(r.value.(blockChanged := false, changesMade := true))
  }

  /** The right button at the target cell: toggle it once per press, recording new markers. */
  function RightTool(s: Tools, t: (int, int), right: bool): Result<Tools, PaintError> {
    var r :=
      if right && !s.rightClick then
        if !InRange(s.data, t) then Err(OutOfRange(t.0, t.1))
        else
          var v := s.data[t.0][t.1];
          var s1 :=
            if v == Start then s.(data := SetCell(s.data, t, Exit), finishPos := AddOnce(s.finishPos, t))
            else if 0 <= v <= 8 then s.(data := SetCell(s.data, t, Start), startPos := AddOnce(s.startPos, t))
            else s;
          Ok(s1.(rightClick := true))
      else Ok(s);
    if r.Err? || right then r else Ok(r.value.(rightClick := false, changesMade := true))
  }

  /**
   * The paint part of World.update for one frame, with the cursor at `pos`
   * and the two buttons' states; `maxX` is the largest x the edit area
   * admits. The right button is ignored on the top row.
   */
  function PaintStep(s: Tools, pos: Pos, left: bool, right: bool, maxX: int): Result<Tools, PaintError> {
    if pos.x > maxX then Ok(s)
    else
      var r := LeftTool(s, Target(pos), left);
      if r.Err? || pos.y < TileSize then r else RightTool(r.value, Target(pos), right)
  }

  /** Whether the tools edit the target cell this frame. */
  predicate LeftFires(s: Tools, pos: Pos, left: bool, maxX: int) {
    pos.x <= maxX && left && !s.blockChanged
  }

  predicate RightFires(s: Tools, pos: Pos, right: bool, maxX: int) {
    pos.x <= maxX && pos.y >= TileSize && right && !s.rightClick
  }

  /** The shape of a grid: its number of rows and each row's length. */
  predicate SameShape(g: Grid, h: Grid) {
    |g| == |h| && forall i :: 0 <= i < |g| ==> |g[i]| == |h[i]|
  }

  /**
   * A frame fails exactly when a tool fires with the cursor outside the
   * grid; otherwise only the target cell can change, and the grid keeps its
   * shape.
   */
  lemma PaintOnlyTarget(s: Tools, pos: Pos, left: bool, right: bool, maxX: int)
    ensures var r := PaintStep(s, pos, left, right, maxX);
      && (r.Err? <==> (LeftFires(s, pos, left, maxX) || RightFires(s, pos, right, maxX)) && !InRange(s.data, Target(pos)))
      && (r.Ok? ==> SameShape(r.value.data, s.data))
      && (r.Ok? ==> forall i, j :: 0 <= i < |s.data| && 0 <= j < |s.data[i]| && (i, j) != Target(pos) ==>
            r.value.data[i][j] == s.data[i][j])
  {
  }

  /** Nothing is edited, latched or released with the cursor right of the edit area. */
  lemma NoEditOutsideArea(s: Tools, pos: Pos, left: bool, right: bool, maxX: int)
    requires pos.x > maxX
    ensures PaintStep(s, pos, left, right, maxX) == Ok(s)
  {
  }

  /**
   * What happens to the target cell: the left tool applies the cycle, then
   * the right tool the toggle, each only when it fires; a new start or exit
   * marker is recorded, and nothing is recorded twice; a tool that fires
   * closes its latch.
   */
  lemma PaintTarget(s: Tools, pos: Pos, left: bool, right: bool, maxX: int)
    requires InRange(s.data, Target(pos))
    ensures var r := PaintStep(s, pos, left, right, maxX); var t := Target(pos);
      var v := s.data[t.0][t.1];
      var afterLeft := if LeftFires(s, pos, left, maxX) then Cycle(v) else v;
      && r.Ok?
      && r.value.data[t.0][t.1] == (if RightFires(s, pos, right, maxX) then Toggle(afterLeft) else afterLeft)
      && (RightFires(s, pos, right, maxX) && 0 <= afterLeft <= 8 ==> r.value.startPos == AddOnce(s.startPos, t))
      && (RightFires(s, pos, right, maxX) && afterLeft == Start ==> r.value.finishPos == AddOnce(s.finishPos, t))
      && (!RightFires(s, pos, right, maxX) || afterLeft != Start ==> r.value.finishPos == s.finishPos)
      && (!RightFires(s, pos, right, maxX) || !(0 <= afterLeft <= 8) ==> r.value.startPos == s.startPos)
      && (LeftFires(s, pos, left, maxX) ==> r.value.blockChanged)
      && (RightFires(s, pos, right, maxX) ==> r.value.rightClick)
  {
  }

  /** On the top row the right button does nothing at all, not even release its latch. */
  lemma TopRowIgnoresRight(s: Tools, pos: Pos, left: bool, right: bool, maxX: int)
    requires pos.y < TileSize
    ensures var r := PaintStep(s, pos, left, right, maxX);
      r.Ok? ==> r.value.rightClick == s.rightClick && r.value.startPos == s.startPos && r.value.finishPos == s.finishPos
  {
  }

  /**
   * Left clicks walk 0, 1, 2, 3, 6, 7 and back to 0; from any code a level
   * holds they land in that cycle, so a left click never writes 4, 5, the
   * exit or the start, and a start or an exit becomes empty.
   */
  lemma CycleRange(v: int)
    ensures v in Codes ==> Cycle(v) in {Empty, Dirt, Grass, Blob, Lava, Coin}
    ensures Cycle(Start) == Empty && Cycle(Exit) == Empty
    ensures Cycle(Empty) == Dirt && Cycle(Dirt) == Grass && Cycle(Grass) == Blob
    ensures Cycle(Blob) == Lava && Cycle(Lava) == Coin && Cycle(Coin) == Empty
  {
  }

  predicate AllCodes(g: Grid) {
    forall i, j :: 0 <= i < |g| && 0 <= j < |g[i]| ==> g[i][j] in Codes
  }

  /** Painting a level that holds only valid codes leaves only valid codes. */
  lemma PaintKeepsCodes(s: Tools, pos: Pos, left: bool, right: bool, maxX: int)
    requires AllCodes(s.data)
    ensures var r := PaintStep(s, pos, left, right, maxX); r.Ok? ==> AllCodes(r.value.data)
  {
    var r := PaintStep(s, pos, left, right, maxX);
    if r.Ok? && InRange(s.data, Target(pos)) {
      PaintTarget(s, pos, left, right, maxX);
      PaintOnlyTarget(s, pos, left, right, maxX);
    } else if r.Ok? {
      PaintOnlyTarget(s, pos, left, right, maxX);
    }
  }

  predicate NoDup(xs: seq<(int, int)>) {
    forall i, j :: 0 <= i < j < |xs| ==> xs[i] != xs[j]
  }

  /** The marker lists never hold a coordinate twice. */
  lemma PaintKeepsNoDup(s: Tools, pos: Pos, left: bool, right: bool, maxX: int)
    requires NoDup(s.startPos) && NoDup(s.finishPos)
    ensures var r := PaintStep(s, pos, left, right, maxX);
      r.Ok? ==> NoDup(r.value.startPos) && NoDup(r.value.finishPos)
  {
    AddOnceNoDup(s.startPos, Target(pos));
    AddOnceNoDup(s.finishPos, Target(pos));
  }

  lemma AddOnceNoDup(xs: seq<(int, int)>, t: (int, int))
    requires NoDup(xs)
    ensures NoDup(AddOnce(xs, t))
  {
  }

  /** Frames with both buttons held in the same way throughout, the cursor moving freely. */
  function PaintRun(s: Tools, positions: seq<Pos>, left: bool, right: bool, maxX: int): Result<Tools, PaintError>
    decreases |positions|
  {
    if |positions| == 0 then Ok(s)
    else
      var r := PaintStep(s, positions[0], left, right, maxX);
      if r.Err? then r else PaintRun(r.value, positions[1..], left, right, maxX)
  }

  /**
   * Each latch allows one edit per press: once a held button has edited, no
   * later frame of the same press edits anything or records a marker,
   * wherever the cursor goes.
   */
  lemma {:induction false} HeldButtonsEditOnce(s: Tools, positions: seq<Pos>, left: bool, right: bool, maxX: int)
    requires left ==> s.blockChanged
    requires right ==> s.rightClick
    ensures var r := PaintRun(s, positions, left, right, maxX);
      r.Ok? && r.value.data == s.data && r.value.startPos == s.startPos && r.value.finishPos == s.finishPos
    decreases |positions|
  {
    if |positions| > 0 {
      var r := PaintStep(s, positions[0], left, right, maxX);
      assert r.Ok? && r.value.data == s.data && r.value.startPos == s.startPos && r.value.finishPos == s.finishPos;
      assert (left ==> r.value.blockChanged) && (right ==> r.value.rightClick);
      HeldButtonsEditOnce(r.value, positions[1..], left, right, maxX);
    }
  }

  /**
   * A press edits at most once: after the frame in which a held button's
   * tool fires, or with its latch already closed, the rest of the press
   * leaves the grid and the markers as that frame left them.
   */
  lemma PressEditsOnce(s: Tools, first: Pos, positions: seq<Pos>, left: bool, right: bool, maxX: int)
    requires left ==> s.blockChanged || LeftFires(s, first, left, maxX)
    requires right ==> s.rightClick || RightFires(s, first, right, maxX)
    ensures var r := PaintStep(s, first, left, right, maxX);
      r.Ok? ==>
        var rest := PaintRun(r.value, positions, left, right, maxX);
        rest.Ok? && rest.value.data == r.value.data
        && rest.value.startPos == r.value.startPos && rest.value.finishPos == r.value.finishPos
  {
    var r := PaintStep(s, first, left, right, maxX);
    if r.Ok? {
      PaintOnlyTarget(s, first, left, right, maxX);
      if InRange(s.data, Target(first)) {
        PaintTarget(s, first, left, right, maxX);
      }
      HeldButtonsEditOnce(r.value, positions, left, right, maxX);
    }
  }

  // ---------------------------------------------------------------------------
  // The edit-area guard

  /** A level of the usual size: 20 rows of 20 cells, filling the 700 by 700 edit area. */
  predicate FullSize(g: Grid) {
    |g| == 20 && forall i :: 0 <= i < 20 ==> |g[i]| == 20
  }

  /**
   * As written, the guard admits x = 700, the first pixel column of the
   * side panel: a left click there indexes column 20 of a 20-wide level.
   */
  lemma AsWrittenGuardOverflows()
    ensures var blank := seq(20, _ => seq(20, _ => Empty));
      var s := Tools(blank, false, false, [], [], false);
      FullSize(blank) && PaintStep(s, Pos(700, 35), true, false, AsWrittenMaxX) == Err(OutOfRange(1, 20))
  {
  }

  /** With the guard `x < 700`, no cursor position in the window can index outside a full-size level. */
  lemma EditAreaInRange(s: Tools, pos: Pos, left: bool, right: bool)
    requires FullSize(s.data)
    requires 0 <= pos.x && 0 <= pos.y < ScreenHeight
    ensures PaintStep(s, pos, left, right, EditMaxX).Ok?
  {
    PaintOnlyTarget(s, pos, left, right, EditMaxX);
  }

  // ---------------------------------------------------------------------------
  // The editor's World object

  class World {
    var data: Grid
    var blockChanged: bool
    var rightClick: bool
    var startPos: seq<(int, int)>
    var finishPos: seq<(int, int)>
    var changesMade: bool

    function State(): Tools
      reads this
    {
      Tools(data, blockChanged, rightClick, startPos, finishPos, changesMade)
    }

    constructor (data: Grid)
      ensures State() == Tools(data, false, false, [], [], false)
    {
      this.data := data;
      blockChanged, rightClick := false, false;
      startPos, finishPos := [], [];
      changesMade := false;
    }

    /** World.update_data: the loaded level replaces the one being edited. */
    method UpdateData(g: Grid)
      modifies this`data
      ensures data == g
    {
      data := g;
    }

    /** The preview list of World.update: empty unless `changesMade`. */
    method Preview(changesMade: bool) returns (tiles: seq<Rect>)
      ensures tiles == if changesMade then Emit(CellsOf(data), PreviewSel(TileSize)) else []
    {
      tiles := [];
      if !changesMade {
        return;
      }
      var g := data;
      var r := 0;
      while r < |g|
        invariant 0 <= r <= |g|
        invariant tiles == Emit(CellsOf(g[..r]), PreviewSel(TileSize))
      {
        tiles := PreviewRow(g, r, tiles);
        r := r + 1;
      }
      assert g[..|g|] == g;
    }

    /** The preview scan over row `r`, appending to the sprites of the rows above it. */
    method PreviewRow(g: Grid, r: int, tiles0: seq<Rect>) returns (tiles: seq<Rect>)
      requires 0 <= r < |g| && tiles0 == Emit(CellsOf(g[..r]), PreviewSel(TileSize))
      ensures tiles == Emit(CellsOf(g[..r + 1]), PreviewSel(TileSize))
    {
      tiles := tiles0;
      var c := 0;
      assert g[r][..0] == [];
      assert Scanned(g, r, 0) == CellsOf(g[..r]);
      while c < |g[r]|
        invariant 0 <= c <= |g[r]|
        invariant tiles == Emit(Scanned(g, r, c), PreviewSel(TileSize))
      {
        var sprite := PreviewSprite(r, c, g[r][c]);
        ScanNext(g, r, c);
        EmitSnoc(Scanned(g, r, c), Cell(r, c, g[r][c]), PreviewSel(TileSize));
        tiles := tiles + sprite;
        c := c + 1;
      }
      ScanRowDone(g, r);
    }

    /**
     * The paint part of World.update, with `maxX` the largest x the edit area
     * admits: `AsWrittenMaxX` as the guard is written, `EditMaxX` as intended.
     */
    method Paint(pos: Pos, left: bool, right: bool, maxX: int) returns (err: Option<PaintError>)
      modifies this
      ensures var r := PaintStep(old(State()), pos, left, right, maxX);
        (r.Ok? ==> err == None && State() == r.value) && (r.Err? ==> err == Some(r.error))
    {
      err := None;
      if pos.x <= maxX {
        var t := Target(pos);
        err := LeftClick(t, left);
        if err.Some? || pos.y < TileSize {
          return;
        }
        err := RightClick(t, right);
      }
    }

    method LeftClick(t: (int, int), left: bool) returns (err: Option<PaintError>)
      modifies this
      ensures var r := LeftTool(old(State()), t, left);
        (r.Ok? ==> err == None && State() == r.value) && (r.Err? ==> err == Some(r.error))
    {
      err := None;
      if left && !blockChanged {
        var (dim1, dim2) := t;
        if !(0 <= dim1 < |data| && 0 <= dim2 < |data[dim1]|) {
          return Some(OutOfRange(dim1, dim2));
        }
        var v := data[dim1][dim2] + 1;
        if v == 4 {
          v := 6;
        }
        if v > 7 {
          v := 0;
        }
        data := data[dim1 := data[dim1][dim2 := v]];
        blockChanged := true;
      }
      if !left {
        blockChanged := false;
        changesMade := true;
      }
    }

    method RightClick(t: (int, int), right: bool) returns (err: Option<PaintError>)
      modifies this
      ensures var r := RightTool(old(State()), t, right);
        (r.Ok? ==> err == None && State() == r.value) && (r.Err? ==> err == Some(r.error))
    {
      err := None;
      if right && !rightClick {
        var (dim1, dim2) := t;
        if !(0 <= dim1 < |data| && 0 <= dim2 < |data[dim1]|) {
          return Some(OutOfRange(dim1, dim2));
        }
        var v := data[dim1][dim2];
        if v == Start {
          data := data[dim1 := data[dim1][dim2 := Exit]];
          if t !in finishPos {
            finishPos := finishPos + [t];
          }
        } else if 8 >= v >= 0 {
          data := data[dim1 := data[dim1][dim2 := Start]];
          if t !in startPos {
            startPos := startPos + [t];
          }
        }
        rightClick := true;
      }
      if !right {
        rightClick := false;
        changesMade := true;
      }
    }
  }
}
