/** XOR sprite drawing on the 64x32 torus, stated cell by cell.

    A sprite is `n` bytes, one per row; bit `col` of row `row`, counted from
    the most significant bit, lands on cell
    `((vx + col) % 64, (vy + row) % 32)`. Since a sprite is at most 8 columns
    wide and at most 32 rows high, no two of its bits land on the same cell,
    so each cell is either hit by exactly one bit or by none, and a cell's
    offsets from the origin name the bit that hits it. */
module Sprite {
  import opened Words
  import opened Chip8

  /** Bit `col` of a sprite row is set: `row & (0x80 >> col) > 0`. */
  predicate BitSet(row: u8, col: nat)
    requires col < 8
  {
    (row as bv8) & ((0x80 as bv8) >> col) != 0
  }

  /** How far column `c` lies to the right of `vx`, around the torus. */
  function ColOffset(vx: int, c: int): nat
  {
    (c - vx) % DisplayWidth
  }

  /** How far row `r` lies below `vy`, around the torus. */
  function RowOffset(vy: int, r: int): nat
  {
    (r - vy) % DisplayHeight
  }

  /** Cell `(c, r)` is hit by one of the first `k` set bits of the sprite in
      drawing order (row by row, each row left to right). */
  predicate HitBefore(rows: seq<u8>, vx: int, vy: int, c: int, r: int, k: int)
  {
    var dc := ColOffset(vx, c);
    var dr := RowOffset(vy, r);
    dc < 8 && dr < |rows| && dr * 8 + dc < k && BitSet(rows[dr], dc)
  }

  /** Cell `(c, r)` is hit by some set bit of the sprite. */
  predicate Hit(rows: seq<u8>, vx: int, vy: int, c: int, r: int)
  {
    HitBefore(rows, vx, vy, c, r, 8 * |rows|)
  }

  /** Cell `(c, r)` after the first `k` bits of the sprite have been drawn. */
  function CellAfter(g: Grid, rows: seq<u8>, vx: int, vy: int, k: int, c: int, r: int): bit
    requires IsGrid(g) && 0 <= c < DisplayWidth && 0 <= r < DisplayHeight
  {
    if HitBefore(rows, vx, vy, c, r, k) then 1 - g[c][r] else g[c][r]
  }

  /** The grid after the first `k` bits of the sprite have been drawn. */
  function DrawnBefore(g: Grid, rows: seq<u8>, vx: int, vy: int, k: int): (g': Grid)
    requires IsGrid(g)
    ensures IsGrid(g')
  {
    seq(DisplayWidth, c requires 0 <= c < DisplayWidth =>
      seq(DisplayHeight, r requires 0 <= r < DisplayHeight => CellAfter(g, rows, vx, vy, k, c, r)))
  }

  /** The grid after the whole sprite has been drawn. */
  function Draw(g: Grid, rows: seq<u8>, vx: int, vy: int): (g': Grid)
    requires IsGrid(g)
    ensures IsGrid(g')
  {
    DrawnBefore(g, rows, vx, vy, 8 * |rows|)
  }

  /** One of the first `k` bits lands on a cell that was on. */
  predicate CollidesBefore(g: Grid, rows: seq<u8>, vx: int, vy: int, k: int)
    requires IsGrid(g)
  {
    exists c, r | 0 <= c < DisplayWidth && 0 <= r < DisplayHeight ::
      HitBefore(rows, vx, vy, c, r, k) && g[c][r] == 1
  }

  /** Some bit of the sprite lands on a cell that was on. */
  predicate Collides(g: Grid, rows: seq<u8>, vx: int, vy: int)
    requires IsGrid(g)
  {
    CollidesBefore(g, rows, vx, vy, 8 * |rows|)
  }

  /** The bit at (`row`, `col`) lands on a cell whose offsets are `col` and `row`. */
  lemma OffsetsOfCell(vx: int, vy: int, row: nat, col: nat)
    requires col < 8 && row < DisplayHeight
    ensures ColOffset(vx, (vx + col) % DisplayWidth) == col
    ensures RowOffset(vy, (vy + row) % DisplayHeight) == row
  {
    var c := (vx + col) % DisplayWidth;
    var q := (vx + col) / DisplayWidth;
    assert c - vx == col - q * DisplayWidth;
    ModShiftWidth(col, -q);
    var r := (vy + row) % DisplayHeight;
    var p := (vy + row) / DisplayHeight;
    assert r - vy == row - p * DisplayHeight;
    ModShiftHeight(row, -p);
  }

  /** A cell is where the bit at its own offsets lands. */
  lemma CellOfOffsets(vx: int, vy: int, c: int, r: int)
    requires 0 <= c < DisplayWidth && 0 <= r < DisplayHeight
    ensures (vx + ColOffset(vx, c)) % DisplayWidth == c
    ensures (vy + RowOffset(vy, r)) % DisplayHeight == r
  {
    var q := (c - vx) / DisplayWidth;
    assert vx + ColOffset(vx, c) == c + (-q) * DisplayWidth;
    ModShiftWidth(c, -q);
    var p := (r - vy) / DisplayHeight;
    assert vy + RowOffset(vy, r) == r + (-p) * DisplayHeight;
    ModShiftHeight(r, -p);
  }

  lemma ModShiftWidth(a: int, q: int)
    requires 0 <= a < DisplayWidth
    ensures (a + q * DisplayWidth) % DisplayWidth == a
  {
  }

  lemma ModShiftHeight(a: int, q: int)
    requires 0 <= a < DisplayHeight
    ensures (a + q * DisplayHeight) % DisplayHeight == a
  {
  }

  /** The closed form agrees with drawing bit by bit: a cell is hit exactly
      when some set bit of some row lands on it. */
  lemma HitIff(rows: seq<u8>, vx: int, vy: int, c: int, r: int)
    requires |rows| <= DisplayHeight
    requires 0 <= c < DisplayWidth && 0 <= r < DisplayHeight
    ensures Hit(rows, vx, vy, c, r) <==>
      exists row, col | 0 <= row < |rows| && 0 <= col < 8 ::
        BitSet(rows[row], col) && (vx + col) % DisplayWidth == c && (vy + row) % DisplayHeight == r
  {
    if Hit(rows, vx, vy, c, r) {
      CellOfOffsets(vx, vy, c, r);
      var row, col := RowOffset(vy, r), ColOffset(vx, c);
      assert BitSet(rows[row], col) && (vx + col) % DisplayWidth == c && (vy + row) % DisplayHeight == r;
    }
    if exists row, col | 0 <= row < |rows| && 0 <= col < 8 ::
        BitSet(rows[row], col) && (vx + col) % DisplayWidth == c && (vy + row) % DisplayHeight == r {
      var row, col :| 0 <= row < |rows| && 0 <= col < 8 &&
        BitSet(rows[row], col) && (vx + col) % DisplayWidth == c && (vy + row) % DisplayHeight == r;
      OffsetsOfCell(vx, vy, row, col);
    }
  }

  /** Drawing toggles exactly the cells the sprite hits. */
  lemma DrawToggles(g: Grid, rows: seq<u8>, vx: int, vy: int, c: int, r: int)
    requires IsGrid(g) && 0 <= c < DisplayWidth && 0 <= r < DisplayHeight
    ensures Draw(g, rows, vx, vy)[c][r] == if Hit(rows, vx, vy, c, r) then 1 - g[c][r] else g[c][r]
  {
  }

  /** The collision flag is set exactly when some set bit of the sprite lands
      on a cell that was on before the draw. */
  lemma CollidesIff(g: Grid, rows: seq<u8>, vx: int, vy: int)
    requires IsGrid(g) && |rows| <= DisplayHeight
    ensures Collides(g, rows, vx, vy) <==> PixelCollides(g, rows, vx, vy)
  {
    if Collides(g, rows, vx, vy) {
      var c, r :| 0 <= c < DisplayWidth && 0 <= r < DisplayHeight &&
        Hit(rows, vx, vy, c, r) && g[c][r] == 1;
      CollisionWitness(g, rows, vx, vy, c, r);
    }
    if PixelCollides(g, rows, vx, vy) {
      var row, col :| 0 <= row < |rows| && 0 <= col < 8 && BitOnLitCell(g, rows, vx, vy, row, col);
      OffsetsOfCell(vx, vy, row, col);
      var c, r := (vx + col) % DisplayWidth, (vy + row) % DisplayHeight;
      assert Hit(rows, vx, vy, c, r) && g[c][r] == 1;
    }
  }

  /** Set bit (`row`, `col`) of the sprite lands on a cell that is on. */
  predicate BitOnLitCell(g: Grid, rows: seq<u8>, vx: int, vy: int, row: int, col: int)
    requires IsGrid(g) && 0 <= row < |rows| && 0 <= col < 8
  {
    BitSet(rows[row], col) && g[(vx + col) % DisplayWidth][(vy + row) % DisplayHeight] == 1
  }

  /** Collision as the draw loop sees it, bit by bit. */
  predicate PixelCollides(g: Grid, rows: seq<u8>, vx: int, vy: int)
    requires IsGrid(g)
  {
    exists row, col | 0 <= row < |rows| && 0 <= col < 8 :: BitOnLitCell(g, rows, vx, vy, row, col)
  }

  lemma CollisionWitness(g: Grid, rows: seq<u8>, vx: int, vy: int, c: int, r: int)
    requires IsGrid(g) && 0 <= c < DisplayWidth && 0 <= r < DisplayHeight
    requires Hit(rows, vx, vy, c, r) && g[c][r] == 1
    ensures PixelCollides(g, rows, vx, vy)
  {
    CellOfOffsets(vx, vy, c, r);
    var row, col := RowOffset(vy, r), ColOffset(vx, c);
    assert BitOnLitCell(g, rows, vx, vy, row, col);
  }

  /** XOR is self-inverting: drawing the same sprite twice at the same place
      restores the grid. */
  lemma {:induction false} DrawTwice(g: Grid, rows: seq<u8>, vx: int, vy: int)
    requires IsGrid(g)
    ensures Draw(Draw(g, rows, vx, vy), rows, vx, vy) == g
  {
    var g2 := Draw(Draw(g, rows, vx, vy), rows, vx, vy);
    forall c | 0 <= c < DisplayWidth
      ensures g2[c] == g[c]
    {
      assert forall r | 0 <= r < DisplayHeight :: g2[c][r] == g[c][r];
    }
  }

  /** The second of two identical draws collides exactly where the sprite hits
      a cell that was off before the first: its flag reports its own
      collisions, which are the first draw's pixels. */
  lemma RedrawCollides(g: Grid, rows: seq<u8>, vx: int, vy: int)
    requires IsGrid(g)
    ensures Collides(Draw(g, rows, vx, vy), rows, vx, vy) <==>
      exists c, r | 0 <= c < DisplayWidth && 0 <= r < DisplayHeight ::
        Hit(rows, vx, vy, c, r) && g[c][r] == 0
  {
    var g1 := Draw(g, rows, vx, vy);
    if Collides(g1, rows, vx, vy) {
      var c, r :| 0 <= c < DisplayWidth && 0 <= r < DisplayHeight &&
        Hit(rows, vx, vy, c, r) && g1[c][r] == 1;
      DrawToggles(g, rows, vx, vy, c, r);
    }
    if exists c, r | 0 <= c < DisplayWidth && 0 <= r < DisplayHeight ::
        Hit(rows, vx, vy, c, r) && g[c][r] == 0 {
      var c, r :| 0 <= c < DisplayWidth && 0 <= r < DisplayHeight &&
        Hit(rows, vx, vy, c, r) && g[c][r] == 0;
      DrawToggles(g, rows, vx, vy, c, r);
    }
  }

  /** Drawing bit `k` (row `k / 8`, column `k % 8`) extends the drawn prefix by
      at most the one cell that bit lands on, and that cell was not hit
      before. */
  lemma {:induction false} StepHits(rows: seq<u8>, vx: int, vy: int, k: nat, c: int, r: int)
    requires |rows| <= DisplayHeight && k < 8 * |rows|
    requires 0 <= c < DisplayWidth && 0 <= r < DisplayHeight
    ensures var row, col := k / 8, k % 8;
      HitBefore(rows, vx, vy, c, r, k + 1) <==>
        HitBefore(rows, vx, vy, c, r, k) ||
        (c == (vx + col) % DisplayWidth && r == (vy + row) % DisplayHeight && BitSet(rows[row], col))
    ensures var row, col := k / 8, k % 8;
      c == (vx + col) % DisplayWidth && r == (vy + row) % DisplayHeight ==>
        !HitBefore(rows, vx, vy, c, r, k)
  {
    var row, col := k / 8, k % 8;
    OffsetsOfCell(vx, vy, row, col);
    CellOfOffsets(vx, vy, c, r);
    var dc, dr := ColOffset(vx, c), RowOffset(vy, r);
    if dc < 8 && dr * 8 + dc == k {
      assert dr == row && dc == col;
    }
  }

  /** Drawing bit `k` adds a collision exactly when that bit is set and lands
      on a cell that was on before the draw. */
  lemma StepCollides(g: Grid, rows: seq<u8>, vx: int, vy: int, k: nat)
    requires IsGrid(g) && |rows| <= DisplayHeight && k < 8 * |rows|
    ensures var row, col := k / 8, k % 8;
      CollidesBefore(g, rows, vx, vy, k + 1) <==>
        CollidesBefore(g, rows, vx, vy, k) ||
        (BitSet(rows[row], col) && g[(vx + col) % DisplayWidth][(vy + row) % DisplayHeight] == 1)
  {
    var row, col := k / 8, k % 8;
    var c0, r0 := (vx + col) % DisplayWidth, (vy + row) % DisplayHeight;
    if CollidesBefore(g, rows, vx, vy, k + 1) {
      var c, r :| 0 <= c < DisplayWidth && 0 <= r < DisplayHeight &&
        HitBefore(rows, vx, vy, c, r, k + 1) && g[c][r] == 1;
      StepHits(rows, vx, vy, k, c, r);
    }
    if CollidesBefore(g, rows, vx, vy, k) {
      var c, r :| 0 <= c < DisplayWidth && 0 <= r < DisplayHeight &&
        HitBefore(rows, vx, vy, c, r, k) && g[c][r] == 1;
      StepHits(rows, vx, vy, k, c, r);
    }
    if BitSet(rows[row], col) && g[c0][r0] == 1 {
      StepHits(rows, vx, vy, k, c0, r0);
      assert HitBefore(rows, vx, vy, c0, r0, k + 1);
    }
  }

  /** Drawing bit `col` of row `row` (bit number `8 * row + col`) toggles the
      cell that bit lands on when it is set, and no other cell; that cell still
      holds its value from before the draw. */
  lemma DrawnStep(g: Grid, rows: seq<u8>, vx: int, vy: int, row: nat, col: nat, c: int, r: int)
    requires IsGrid(g) && |rows| <= DisplayHeight && row < |rows| && col < 8
    requires 0 <= c < DisplayWidth && 0 <= r < DisplayHeight
    ensures var k := 8 * row + col;
      var target := c == (vx + col) % DisplayWidth && r == (vy + row) % DisplayHeight;
      CellAfter(g, rows, vx, vy, k + 1, c, r) ==
        (if target && BitSet(rows[row], col) then 1 - CellAfter(g, rows, vx, vy, k, c, r)
         else CellAfter(g, rows, vx, vy, k, c, r)) &&
      (target ==> CellAfter(g, rows, vx, vy, k, c, r) == g[c][r])
  {
    var k := 8 * row + col;
    assert k / 8 == row && k % 8 == col;
    StepHits(rows, vx, vy, k, c, r);
  }
}
