/**
 * The level grid and the row-major scan that both programs run over it:
 * rows top to bottom, and in each row the cells left to right.
 */
module Grid {
  import opened Common
  import opened Geometry

  /** A level as it is stored: a list of rows, each a list of cell codes. */
  type Grid = seq<seq<int>>

  /** One cell of a grid together with its row and column index. */
  datatype Cell = Cell(row: int, col: int, code: int)

  // Cell codes
  const Empty := 0
  const Dirt := 1
  const Grass := 2
  const Blob := 3
  const Lava := 6
  const Coin := 7
  const Exit := 8
  const Start := -1

  predicate IsGround(code: int) { code == Dirt || code == Grass }

  /** The cells of the row with index `r`, left to right. */
  function RowCells(r: int, row: seq<int>): (cs: seq<Cell>)
    ensures |cs| == |row|
    ensures forall j :: 0 <= j < |row| ==> cs[j] == Cell(r, j, row[j])
    decreases |row|
  {
    if row == [] then [] else RowCells(r, row[..|row| - 1]) + [Cell(r, |row| - 1, row[|row| - 1])]
  }

  /** Every cell of `g` in the order of the nested scan loops. */
  function CellsOf(g: Grid): seq<Cell>
    decreases |g|
  {
    if g == [] then [] else CellsOf(g[..|g| - 1]) + RowCells(|g| - 1, g[|g| - 1])
  }

  /** The cells a scan has visited when it stands at row `r`, column `c`. */
  function Scanned(g: Grid, r: int, c: int): seq<Cell>
    requires 0 <= r < |g| && 0 <= c <= |g[r]|
  {
    CellsOf(g[..r]) + RowCells(r, g[r][..c])
  }

  /** Row-major order: an earlier row, or the same row and an earlier column. */
  predicate Before(a: Cell, b: Cell) {
    a.row < b.row || (a.row == b.row && a.col < b.col)
  }

  /** `c` is a cell of `g`: its indices are in range and its code is the one stored there. */
  predicate InGrid(g: Grid, c: Cell) {
    0 <= c.row < |g| && 0 <= c.col < |g[c.row]| && c.code == g[c.row][c.col]
  }

  /** The scan visits exactly the cells of the grid, each once, in row-major order. */
  lemma {:induction false} CellsOfExact(g: Grid)
    ensures forall c :: c in CellsOf(g) <==> InGrid(g, c)
    ensures forall i, j :: 0 <= i < j < |CellsOf(g)| ==> Before(CellsOf(g)[i], CellsOf(g)[j])
    decreases |g|
  {
    if g != [] {
      var n := |g|;
      var g' := g[..n - 1];
      CellsOfExact(g');
      var A, B := CellsOf(g'), RowCells(n - 1, g[n - 1]);
      assert CellsOf(g) == A + B;
      forall c ensures c in A + B <==> InGrid(g, c) {
        if c in B {
          var j :| 0 <= j < |B| && B[j] == c;
        }
        if InGrid(g, c) && c.row == n - 1 {
          assert B[c.col] == c;
        }
        if c in A {
          assert InGrid(g', c);
        }
        if InGrid(g, c) && c.row < n - 1 {
          assert InGrid(g', c);
        }
      }
      forall i, j | 0 <= i < j < |A + B| ensures Before((A + B)[i], (A + B)[j]) {
        if j < |A| {
          assert (A + B)[i] == A[i] && (A + B)[j] == A[j];
        } else if i < |A| {
          assert A[i] in A;
          assert InGrid(g', A[i]);
        }
      }
    }
  }

  /** One step of the scan: the next cell of the current row is appended. */
  lemma ScanNext(g: Grid, r: int, c: int)
    requires 0 <= r < |g| && 0 <= c < |g[r]|
    ensures Scanned(g, r, c + 1) == Scanned(g, r, c) + [Cell(r, c, g[r][c])]
  {
    assert g[r][..c + 1][..c] == g[r][..c];
  }

  /** A finished row: the scan of rows 0..r plus all of row r is the scan of rows 0..r+1. */
  lemma ScanRowDone(g: Grid, r: int)
    requires 0 <= r < |g|
    ensures Scanned(g, r, |g[r]|) == CellsOf(g[..r + 1])
  {
    assert g[..r + 1][..r] == g[..r];
    assert g[r][..|g[r]|] == g[r];
  }

  /** The cells of the first `k` rows are scanned before all the others. */
  lemma {:induction false} CellsOfPrefix(g: Grid, k: int)
    requires 0 <= k <= |g|
    ensures CellsOf(g[..k]) <= CellsOf(g)
    decreases |g|
  {
    if k < |g| {
      var g' := g[..|g| - 1];
      CellsOfPrefix(g', k);
      assert g'[..k] == g[..k];
    } else {
      assert g[..k] == g;
    }
  }

  /** Whatever the scan has visited so far is a prefix of the whole scan. */
  lemma ScannedInRow(g: Grid, r: int, c: int)
    requires 0 <= r < |g| && 0 <= c <= |g[r]|
    ensures Scanned(g, r, c) <= CellsOf(g[..r + 1])
  {
    var row := RowCells(r, g[r]);
    assert RowCells(r, g[r][..c]) == row[..c];
    ScanRowDone(g, r);
  }

  lemma ScannedPrefix(g: Grid, r: int, c: int)
    requires 0 <= r < |g| && 0 <= c <= |g[r]|
    ensures Scanned(g, r, c) <= CellsOf(g)
  {
    var row := RowCells(r, g[r]);
    assert RowCells(r, g[r][..c]) == row[..c];
    ScanRowDone(g, r);
    assert CellsOf(g[..r + 1]) == CellsOf(g[..r]) + row;
    CellsOfPrefix(g, r + 1);
  }

  // ---------------------------------------------------------------------------
  // Filtering a scan into a list of rectangles

  /**
   * Where a scan places each kind of sprite, for a tile size `ts`: which cells
   * get one and the rectangle it occupies.
   */
  datatype Selector =
    | GroundSel(ts: int)   // dirt and grass: a tile-square collision box at the cell
    | EnemySel(ts: int)    // a blob: a tile-square sprite at the cell
    | LavaSel(ts: int)     // lava: the lower half of the cell, reaching 5 pixels below it
    | CoinSel(ts: int)     // a coin: a tile-square sprite at the cell
    | PreviewSel(ts: int)  // the editor's preview: one tile, or two tall and raised a tile

  /** The codes the preview draws as one tile, and the two it draws two tiles tall. */
  predicate IsSquare(code: int) { code == Dirt || code == Grass || code == Blob || code == Lava || code == Coin }
  predicate IsTall(code: int) { code == Exit || code == Start }

  /** The rectangle `sel` places at cell `c`, if any. */
  function Select(sel: Selector, c: Cell): Option<Rect> {
    var ts := sel.ts;
    var square := Rect(c.col * ts, c.row * ts, ts, ts);
    match sel
    case GroundSel(_) => if IsGround(c.code) then Some(square) else None
    case EnemySel(_) => if c.code == Blob then Some(square) else None
    case LavaSel(_) => if c.code == Lava then Some(Rect(c.col * ts, c.row * ts + ts / 2, ts, ts / 2 + 5)) else None
    case CoinSel(_) => if c.code == Coin then Some(square) else None
    case PreviewSel(_) =>
      if IsSquare(c.code) then Some(square)
      else if IsTall(c.code) then Some(Rect(c.col * ts, c.row * ts - ts, ts, 2 * ts))
      else None
  }

  function Emitted(o: Option<Rect>): seq<Rect> {
    if o.Some? then [o.value] else []
  }

  /**
   * What a scan appends to a list: for every cell in order, the rectangle `sel`
   * gives it, if any.
   */
  function Emit(cs: seq<Cell>, sel: Selector): seq<Rect>
    decreases |cs|
  {
    if cs == [] then [] else Emit(cs[..|cs| - 1], sel) + Emitted(Select(sel, cs[|cs| - 1]))
  }

  lemma EmitSnoc(cs: seq<Cell>, c: Cell, sel: Selector)
    ensures Emit(cs + [c], sel) == Emit(cs, sel) + Emitted(Select(sel, c))
  {
    assert (cs + [c])[..|cs|] == cs;
  }

  /** The indices of the cells that `sel` emits a rectangle for, in scan order. */
  function Picked(cs: seq<Cell>, sel: Selector): seq<int>
    decreases |cs|
  {
    if cs == [] then [] else Picked(cs[..|cs| - 1], sel) + (if Select(sel, cs[|cs| - 1]).Some? then [|cs| - 1] else [])
  }

  /**
   * Emit lists exactly one rectangle per selected cell, the one `sel` gives it,
   * in the order the cells are scanned.
   */
  lemma {:induction false} EmitPicked(cs: seq<Cell>, sel: Selector)
    ensures |Emit(cs, sel)| == |Picked(cs, sel)|
    ensures forall k :: 0 <= k < |Picked(cs, sel)| ==>
              0 <= Picked(cs, sel)[k] < |cs| && Select(sel, cs[Picked(cs, sel)[k]]) == Some(Emit(cs, sel)[k])
    ensures forall k, l :: 0 <= k < l < |Picked(cs, sel)| ==> Picked(cs, sel)[k] < Picked(cs, sel)[l]
    ensures forall i :: 0 <= i < |cs| && Select(sel, cs[i]).Some? ==> i in Picked(cs, sel)
    decreases |cs|
  {
    if cs != [] {
      var n := |cs|;
      var p := cs[..n - 1];
      EmitPicked(p, sel);
      var E0, P0 := Emit(p, sel), Picked(p, sel);
      var last := Select(sel, cs[n - 1]);
      var E, P := Emit(cs, sel), Picked(cs, sel);
      assert E == E0 + Emitted(last);
      assert P == P0 + (if last.Some? then [n - 1] else []);
      forall k | 0 <= k < |P| ensures 0 <= P[k] < n && Select(sel, cs[P[k]]) == Some(E[k]) {
        if k < |P0| {
          assert P[k] == P0[k] && E[k] == E0[k] && p[P0[k]] == cs[P0[k]];
        }
      }
      forall i | 0 <= i < n && Select(sel, cs[i]).Some? ensures i in P {
        if i < n - 1 {
          assert p[i] == cs[i];
          assert i in P0;
        }
      }
    }
  }

  /** An emitted rectangle is the rectangle of some scanned cell, and every selected cell contributes. */
  lemma EmitMembers(cs: seq<Cell>, sel: Selector)
    ensures forall r :: r in Emit(cs, sel) <==> exists i :: 0 <= i < |cs| && Select(sel, cs[i]) == Some(r)
  {
    EmitPicked(cs, sel);
    var E, P := Emit(cs, sel), Picked(cs, sel);
    forall r ensures r in E <==> exists i :: 0 <= i < |cs| && Select(sel, cs[i]) == Some(r) {
      if r in E {
        var k :| 0 <= k < |E| && E[k] == r;
        assert Select(sel, cs[P[k]]) == Some(r);
      }
      if i :| 0 <= i < |cs| && Select(sel, cs[i]) == Some(r) {
        assert i in P;
        var k :| 0 <= k < |P| && P[k] == i;
        assert E[k] == r;
      }
    }
  }

  /** The number of cells whose code is in `codes`. */
  function CountCodes(cs: seq<Cell>, codes: set<int>): nat
    decreases |cs|
  {
    if cs == [] then 0 else CountCodes(cs[..|cs| - 1], codes) + (if cs[|cs| - 1].code in codes then 1 else 0)
  }

  /** When `sel` fires exactly on the cells with a code in `codes`, Emit yields one rectangle per such cell. */
  lemma {:induction false} EmitCount(cs: seq<Cell>, sel: Selector, codes: set<int>)
    requires forall c :: Select(sel, c).Some? <==> c.code in codes
    ensures |Emit(cs, sel)| == CountCodes(cs, codes)
    decreases |cs|
  {
    if cs != [] {
      EmitCount(cs[..|cs| - 1], sel, codes);
    }
  }

  // ---------------------------------------------------------------------------
  // Markers

  /** The index of the last cell with code `code`, or -1 when there is none. */
  function LastIndex(cs: seq<Cell>, code: int): (i: int)
    ensures -1 <= i < |cs|
    ensures i >= 0 ==> cs[i].code == code
    ensures forall j :: i < j < |cs| ==> cs[j].code != code
    decreases |cs|
  {
    if cs == [] then -1
    else if cs[|cs| - 1].code == code then |cs| - 1
    else LastIndex(cs[..|cs| - 1], code)
  }

  /** Some scanned cell is ground (code 1 or 2). */
  function HasGround(cs: seq<Cell>): bool
    decreases |cs|
  {
    cs != [] && (HasGround(cs[..|cs| - 1]) || IsGround(cs[|cs| - 1].code))
  }

  /** An exit cell (8) is scanned while no ground cell has been scanned yet. */
  function ExitBeforeGround(cs: seq<Cell>): bool
    decreases |cs|
  {
    cs != [] && (ExitBeforeGround(cs[..|cs| - 1]) || (cs[|cs| - 1].code == Exit && !HasGround(cs[..|cs| - 1])))
  }

  lemma {:induction false} HasGroundExact(cs: seq<Cell>)
    ensures HasGround(cs) <==> exists i :: 0 <= i < |cs| && IsGround(cs[i].code)
    decreases |cs|
  {
    if cs != [] {
      var p := cs[..|cs| - 1];
      HasGroundExact(p);
      assert forall i :: 0 <= i < |p| ==> p[i] == cs[i];
    }
  }

  /** ExitBeforeGround holds exactly when some exit cell has no ground cell before it. */
  lemma {:induction false} ExitBeforeGroundExact(cs: seq<Cell>)
    ensures ExitBeforeGround(cs) <==>
      exists i :: 0 <= i < |cs| && cs[i].code == Exit && forall j :: 0 <= j < i ==> !IsGround(cs[j].code)
    decreases |cs|
  {
    if cs != [] {
      var n := |cs|;
      var p := cs[..n - 1];
      ExitBeforeGroundExact(p);
      HasGroundExact(p);
      assert forall i :: 0 <= i < |p| ==> p[i] == cs[i];
      if ExitBeforeGround(cs) {
        if ExitBeforeGround(p) {
          var i :| 0 <= i < |p| && p[i].code == Exit && forall j :: 0 <= j < i ==> !IsGround(p[j].code);
          assert cs[i].code == Exit && forall j :: 0 <= j < i ==> !IsGround(cs[j].code);
        } else {
          assert cs[n - 1].code == Exit && forall j :: 0 <= j < n - 1 ==> !IsGround(cs[j].code);
        }
      }
      if i :| 0 <= i < n && cs[i].code == Exit && forall j :: 0 <= j < i ==> !IsGround(cs[j].code) {
        if i < n - 1 {
          assert p[i].code == Exit && forall j :: 0 <= j < i ==> !IsGround(p[j].code);
        } else {
          assert !HasGround(p);
        }
      }
    }
  }

  /** Scanning more cells never undoes an exit seen before any ground. */
  lemma ExitBeforeGroundExtends(cs: seq<Cell>, more: seq<Cell>)
    requires cs <= more && ExitBeforeGround(cs)
    ensures ExitBeforeGround(more)
  {
    ExitBeforeGroundExact(cs);
    ExitBeforeGroundExact(more);
    var i :| 0 <= i < |cs| && cs[i].code == Exit && forall j :: 0 <= j < i ==> !IsGround(cs[j].code);
    assert more[i] == cs[i];
    assert forall j :: 0 <= j < i ==> more[j] == cs[j];
  }

  // ---------------------------------------------------------------------------
  // The scan's results stated over the grid itself

  /** Each cell of the scan is a cell of the grid, found at one index. */
  lemma CellIndex(g: Grid, c: Cell) returns (i: int)
    requires InGrid(g, c)
    ensures 0 <= i < |CellsOf(g)| && CellsOf(g)[i] == c
  {
    CellsOfExact(g);
    i :| 0 <= i < |CellsOf(g)| && CellsOf(g)[i] == c;
  }

  /** A rectangle is emitted exactly when some cell of the grid selects it. */
  lemma EmitGrid(g: Grid, sel: Selector)
    ensures forall r :: r in Emit(CellsOf(g), sel) <==> exists c :: InGrid(g, c) && Select(sel, c) == Some(r)
  {
    var cs := CellsOf(g);
    CellsOfExact(g);
    EmitMembers(cs, sel);
    forall r | r in Emit(cs, sel) ensures exists c :: InGrid(g, c) && Select(sel, c) == Some(r) {
      var i :| 0 <= i < |cs| && Select(sel, cs[i]) == Some(r);
      assert cs[i] in cs;
      assert InGrid(g, cs[i]);
    }
    forall r | exists c :: InGrid(g, c) && Select(sel, c) == Some(r) ensures r in Emit(cs, sel) {
      var c :| InGrid(g, c) && Select(sel, c) == Some(r);
      var i := CellIndex(g, c);
    }
  }

  /**
   * The rectangles come out one per selected grid cell, in row-major order of
   * their cells: `Picked` names the cell behind each rectangle.
   */
  lemma EmitGridOrder(g: Grid, sel: Selector)
    ensures var cs, P, E := CellsOf(g), Picked(CellsOf(g), sel), Emit(CellsOf(g), sel);
      && |E| == |P|
      && (forall k :: 0 <= k < |P| ==> 0 <= P[k] < |cs| && InGrid(g, cs[P[k]]) && Select(sel, cs[P[k]]) == Some(E[k]))
      && (forall k, l :: 0 <= k < l < |P| ==> Before(cs[P[k]], cs[P[l]]))
      && (forall c :: InGrid(g, c) && Select(sel, c).Some? ==> exists k :: 0 <= k < |P| && cs[P[k]] == c)
  {
    var cs, P := CellsOf(g), Picked(CellsOf(g), sel);
    CellsOfExact(g);
    EmitPicked(cs, sel);
    forall k | 0 <= k < |P| ensures InGrid(g, cs[P[k]]) {
      assert cs[P[k]] in cs;
    }
    forall c | InGrid(g, c) && Select(sel, c).Some? ensures exists k :: 0 <= k < |P| && cs[P[k]] == c {
      var i := CellIndex(g, c);
      assert i in P;
      var k :| 0 <= k < |P| && P[k] == i;
    }
  }

  /** `c` is the last cell of the grid holding `code` in row-major order. */
  ghost predicate LastCell(g: Grid, c: Cell, code: int) {
    InGrid(g, c) && c.code == code && forall d :: InGrid(g, d) && d.code == code ==> d == c || Before(d, c)
  }

  /**
   * The last cell with a given code, in row-major order: LastIndex finds none
   * exactly when the grid has no such cell, and otherwise every other such
   * cell comes before it.
   */
  lemma LastInGrid(g: Grid, code: int)
    ensures var cs := CellsOf(g); var i := LastIndex(cs, code);
      && (i < 0 <==> forall c :: InGrid(g, c) ==> c.code != code)
      && (i >= 0 ==> LastCell(g, cs[i], code))
  {
    var cs := CellsOf(g);
    var i := LastIndex(cs, code);
    CellsOfExact(g);
    if i >= 0 {
      assert cs[i] in cs;
      forall d | InGrid(g, d) && d.code == code ensures d == cs[i] || Before(d, cs[i]) {
        var j := CellIndex(g, d);
      }
    } else {
      forall c | InGrid(g, c) ensures c.code != code {
        var j := CellIndex(g, c);
      }
    }
  }

  /**
   * The scan meets an exit before any ground exactly when the grid has an exit
   * cell with no ground cell before it in row-major order.
   */
  lemma ExitBeforeGroundInGrid(g: Grid)
    ensures ExitBeforeGround(CellsOf(g)) <==>
      exists c :: InGrid(g, c) && c.code == Exit && forall d :: InGrid(g, d) && Before(d, c) ==> !IsGround(d.code)
  {
    var cs := CellsOf(g);
    ExitBeforeGroundExact(cs);
    if ExitBeforeGround(cs) {
      var i :| 0 <= i < |cs| && cs[i].code == Exit && forall j :: 0 <= j < i ==> !IsGround(cs[j].code);
      NoGroundBeforeInGrid(g, i);
    }
    if c :| InGrid(g, c) && c.code == Exit && forall d :: InGrid(g, d) && Before(d, c) ==> !IsGround(d.code) {
      var i := CellIndex(g, c);
      NoGroundBeforeInScan(g, i);
    }
  }

  /** No ground among the first `i` cells of the scan: no ground cell of the grid before the `i`-th. */
  lemma NoGroundBeforeInGrid(g: Grid, i: int)
    requires 0 <= i < |CellsOf(g)| && forall j :: 0 <= j < i ==> !IsGround(CellsOf(g)[j].code)
    ensures InGrid(g, CellsOf(g)[i]) && forall d :: InGrid(g, d) && Before(d, CellsOf(g)[i]) ==> !IsGround(d.code)
  {
    var cs := CellsOf(g);
    CellsOfExact(g);
    assert cs[i] in cs;
    forall d | InGrid(g, d) && Before(d, cs[i]) ensures !IsGround(d.code) {
      var j := CellIndex(g, d);
    }
  }

  /** No ground cell of the grid before the `i`-th cell of the scan: no ground among the first `i` cells. */
  lemma NoGroundBeforeInScan(g: Grid, i: int)
    requires 0 <= i < |CellsOf(g)|
    requires forall d :: InGrid(g, d) && Before(d, CellsOf(g)[i]) ==> !IsGround(d.code)
    ensures forall j :: 0 <= j < i ==> !IsGround(CellsOf(g)[j].code)
  {
    var cs := CellsOf(g);
    CellsOfExact(g);
    forall j | 0 <= j < i ensures !IsGround(cs[j].code) {
      assert cs[j] in cs;
      assert Before(cs[j], cs[i]);
    }
  }
}
