/** The Super-CHIP extension of src/superchip.rs.

    `SuperChipStep` is the handler as a function of the machine value and `SuperChip8` the
    extension object, whose `HandleInstruction` is proved to agree with it. Several arms of
    the source behave differently from what their comments announce, and the model keeps
    them as written:
    - DXY0 places pixel (col, row) at screen row y + col, so every sprite row lands on the
      same 16 cells of a diagonal (`DiagonalOnly`, `RowsCollapse`);
    - 00CN builds a 64x32 buffer and copies it into the 128x64 screen, a length mismatch that
      always panics (its whole-screen clear needs N >= 32, which a 4-bit N never reaches);
    - 00FB builds a shifted copy in a local buffer and drops it, so the screen is unchanged;
    - 00FC subtracts 4 from a destination index that starts at 0 and panics at once;
    - FX75 and FX85 index the 8 flag registers with 0..=X and panic for X >= 8 after the
      first eight transfers. */
module SuperChip {
  import opened Conf
  import opened Extensions
  import opened XoPlanes
  import opened XoDraw

  const SCHIP_EXIT_MSG := "S-CHIP Exit instruction (00FD) encountered."
  const COPY_PANIC := "source slice length (2048) does not match destination slice length (8192)"
  const UNDERFLOW_PANIC := "attempt to subtract with overflow"
  const INDEX_PANIC := "index out of bounds"

  /** Cells of the 64x32 buffer the scroll arms build. */
  const LOW_RES_SIZE: nat := 2048

  // ---------------------------------------------------------------- DXY0

  /** The screen and the collision flag while the 16x16 sprite is drawn. */
  datatype Sheet = Sheet(cells: seq<bool>, collided: bool)

  predicate FullScreen(sh: Sheet)
  {
    |sh.cells| == HI_RES_SIZE
  }

  /** The sheet a draw leaves and how the draw ended. */
  datatype Painted = Painted(sh: Sheet, halt: Halt)
  {
    predicate failed() { halt.OutOfBounds? }
  }

  /** Screen cell of sprite column col, in any row: both coordinates advance with the
      column. */
  function DiagCell(pen: Pen, col: nat): (idx: nat)
    requires PenOk(pen)
    ensures idx < HI_RES_SIZE
  {
    (pen.x + col) % pen.width + ((pen.y + col) % pen.height) * HI_RES_WIDTH
  }

  /** Toggles one cell; toggling a set cell is a collision. */
  function Toggle(sh: Sheet, idx: nat): (r: Sheet)
    requires FullScreen(sh) && idx < HI_RES_SIZE
    ensures FullScreen(r)
  {
    Sheet(sh.cells[idx := !sh.cells[idx]], sh.collided || sh.cells[idx])
  }

  /** Columns col..16 of sprite row `row`. */
  function DiagRowFrom(pen: Pen, row: nat, sh: Sheet, col: nat): (r: Sheet)
    requires PenOk(pen) && FullScreen(sh) && pen.index + 2 * row + 1 < RAM_SIZE
    ensures FullScreen(r)
    decreases 16 - col
  {
    if col >= 16 then sh
    else DiagRowFrom(pen, row, if WideBit(pen, row, col) then Toggle(sh, DiagCell(pen, col)) else sh, col + 1)
  }

  /** Rows row..16: a row whose two bytes are not both in memory stops the draw. */
  function DiagFrom(pen: Pen, sh: Sheet, row: nat): (r: Painted)
    requires PenOk(pen) && FullScreen(sh)
    ensures FullScreen(r.sh)
    decreases 16 - row
  {
    if row >= 16 then Painted(sh, Done)
    else if pen.index + 2 * row + 1 >= RAM_SIZE then Painted(sh, OutOfBounds(WIDE_OOB))
    else DiagFrom(pen, DiagRowFrom(pen, row, sh, 0), row + 1)
  }

  /** Row `row` toggles cell i an odd number of times from column col on. */
  function DiagRowFlips(pen: Pen, row: nat, col: nat, i: nat): bool
    requires PenOk(pen) && pen.index + 2 * row + 1 < RAM_SIZE
    decreases 16 - col
  {
    if col >= 16 then false
    else (WideBit(pen, row, col) && DiagCell(pen, col) == i) != DiagRowFlips(pen, row, col + 1, i)
  }

  /** Rows row..16 toggle cell i an odd number of times. */
  function DiagFlips(pen: Pen, row: nat, i: nat): bool
    requires PenOk(pen)
    decreases 16 - row
  {
    if row >= 16 || pen.index + 2 * row + 1 >= RAM_SIZE then false
    else DiagRowFlips(pen, row, 0, i) != DiagFlips(pen, row + 1, i)
  }

  /** Closed form of a row: a cell ends flipped exactly when the row toggles it an odd
      number of times. */
  lemma {:induction false} DiagRowParity(pen: Pen, row: nat, sh: Sheet, col: nat, i: nat)
    requires PenOk(pen) && FullScreen(sh) && pen.index + 2 * row + 1 < RAM_SIZE && i < HI_RES_SIZE
    ensures DiagRowFrom(pen, row, sh, col).cells[i] == (sh.cells[i] != DiagRowFlips(pen, row, col, i))
    decreases 16 - col
  {
    if col < 16 {
      var next := if WideBit(pen, row, col) then Toggle(sh, DiagCell(pen, col)) else sh;
      DiagRowParity(pen, row, next, col + 1, i);
    }
  }

  /** Closed form of the whole draw. */
  lemma {:induction false} DiagParity(pen: Pen, sh: Sheet, row: nat, i: nat)
    requires PenOk(pen) && FullScreen(sh) && i < HI_RES_SIZE
    ensures DiagFrom(pen, sh, row).sh.cells[i] == (sh.cells[i] != DiagFlips(pen, row, i))
    decreases 16 - row
  {
    if row < 16 && pen.index + 2 * row + 1 < RAM_SIZE {
      DiagRowParity(pen, row, sh, 0, i);
      DiagParity(pen, DiagRowFrom(pen, row, sh, 0), row + 1, i);
    }
  }

  /** Drawing the same sprite twice restores the screen. */
  lemma DiagTwiceRestores(pen: Pen, sh: Sheet)
    requires PenOk(pen) && FullScreen(sh)
    ensures DiagFrom(pen, DiagFrom(pen, sh, 0).sh, 0).sh.cells == sh.cells
  {
    var once := DiagFrom(pen, sh, 0).sh;
    forall i | 0 <= i < HI_RES_SIZE
      ensures DiagFrom(pen, once, 0).sh.cells[i] == sh.cells[i]
    {
      DiagParity(pen, sh, 0, i);
      DiagParity(pen, once, 0, i);
    }
  }

  /** The draw fails exactly when the last row's second byte, at I + 31, is past the end of
      memory; the rows before the failing one are drawn. */
  lemma {:induction false} DiagFailsIff(pen: Pen, sh: Sheet, row: nat)
    requires PenOk(pen) && FullScreen(sh)
    ensures DiagFrom(pen, sh, row).failed() <==> row < 16 && pen.index + 31 >= RAM_SIZE
    decreases 16 - row
  {
    if row < 16 && pen.index + 2 * row + 1 < RAM_SIZE {
      DiagFailsIff(pen, DiagRowFrom(pen, row, sh, 0), row + 1);
    }
  }

  /** Only the 16 diagonal cells (x + c, y + c) can change: a row never toggles any other
      cell. */
  lemma {:induction false} DiagRowOnlyDiagonal(pen: Pen, row: nat, col: nat, i: nat)
    requires PenOk(pen) && pen.index + 2 * row + 1 < RAM_SIZE
    requires forall c :: col <= c < 16 ==> DiagCell(pen, c) != i
    ensures !DiagRowFlips(pen, row, col, i)
    decreases 16 - col
  {
    if col < 16 {
      DiagRowOnlyDiagonal(pen, row, col + 1, i);
    }
  }

  lemma {:induction false} DiagonalOnly(pen: Pen, sh: Sheet, row: nat, i: nat)
    requires PenOk(pen) && FullScreen(sh) && i < HI_RES_SIZE
    requires forall c :: 0 <= c < 16 ==> DiagCell(pen, c) != i
    ensures DiagFrom(pen, sh, row).sh.cells[i] == sh.cells[i]
  {
    DiagParity(pen, sh, row, i);
    DiagFlipsOffDiagonal(pen, row, i);
  }

  lemma {:induction false} DiagFlipsOffDiagonal(pen: Pen, row: nat, i: nat)
    requires PenOk(pen)
    requires forall c :: 0 <= c < 16 ==> DiagCell(pen, c) != i
    ensures !DiagFlips(pen, row, i)
    decreases 16 - row
  {
    if row < 16 && pen.index + 2 * row + 1 < RAM_SIZE {
      DiagRowOnlyDiagonal(pen, row, 0, i);
      DiagFlipsOffDiagonal(pen, row + 1, i);
    }
  }

  /** Two columns less than 16 apart stay apart modulo a viewport dimension of 32 or more. */
  lemma ModApart(a: nat, c: nat, c': nat, w: nat)
    requires c < c' < 16 && w in {32, 64, 128}
    ensures (a + c) % w != (a + c') % w
  {
    var q, q' := (a + c) / w, (a + c') / w;
    if w == 32 {
      assert a + c == 32 * q + (a + c) % 32 && a + c' == 32 * q' + (a + c') % 32;
    } else if w == 64 {
      assert a + c == 64 * q + (a + c) % 64 && a + c' == 64 * q' + (a + c') % 64;
    } else {
      assert a + c == 128 * q + (a + c) % 128 && a + c' == 128 * q' + (a + c') % 128;
    }
  }

  /** A screen index determines its column. */
  lemma ColumnOfCell(px: nat, py: nat)
    requires px < HI_RES_WIDTH
    ensures (px + py * HI_RES_WIDTH) % HI_RES_WIDTH == px
  {
  }

  /** Distinct sprite columns land on distinct cells (the viewport is at least 64 wide). */
  lemma DiagCellInjective(pen: Pen, c: nat, c': nat)
    requires PenOk(pen) && c < 16 && c' < 16 && c != c'
    ensures DiagCell(pen, c) != DiagCell(pen, c')
  {
    if c < c' {
      ModApart(pen.x, c, c', pen.width);
    } else {
      ModApart(pen.x, c', c, pen.width);
    }
    ColumnOfCell((pen.x + c) % pen.width, (pen.y + c) % pen.height);
    ColumnOfCell((pen.x + c') % pen.width, (pen.y + c') % pen.height);
  }

  /** Whether rows row..16 have bit c set an odd number of times (up to a missing row). */
  function ColumnParity(pen: Pen, c: nat, row: nat): bool
    requires PenOk(pen) && c < 16
    decreases 16 - row
  {
    if row >= 16 || pen.index + 2 * row + 1 >= RAM_SIZE then false
    else WideBit(pen, row, c) != ColumnParity(pen, c, row + 1)
  }

  lemma {:induction false} DiagRowHitsOwnCell(pen: Pen, row: nat, col: nat, c: nat)
    requires PenOk(pen) && pen.index + 2 * row + 1 < RAM_SIZE && c < 16
    ensures DiagRowFlips(pen, row, col, DiagCell(pen, c)) == (col <= c && WideBit(pen, row, c))
    decreases 16 - col
  {
    if col < 16 {
      if col != c {
        DiagCellInjective(pen, col, c);
      }
      DiagRowHitsOwnCell(pen, row, col + 1, c);
    }
  }

  /** As written, the 16 rows of the sprite collapse onto one diagonal: the cell of column
      c is flipped exactly when an odd number of rows have pixel c set, so, for instance, a
      sprite whose rows are all equal erases nothing and draws nothing when it has an even
      number of drawn rows. */
  lemma {:induction false} RowsCollapse(pen: Pen, sh: Sheet, row: nat, c: nat)
    requires PenOk(pen) && FullScreen(sh) && c < 16
    ensures DiagFrom(pen, sh, row).sh.cells[DiagCell(pen, c)] == (sh.cells[DiagCell(pen, c)] != ColumnParity(pen, c, row))
  {
    DiagParity(pen, sh, row, DiagCell(pen, c));
    DiagFlipsCollapse(pen, row, c);
  }

  lemma {:induction false} DiagFlipsCollapse(pen: Pen, row: nat, c: nat)
    requires PenOk(pen) && c < 16
    ensures DiagFlips(pen, row, DiagCell(pen, c)) == ColumnParity(pen, c, row)
    decreases 16 - row
  {
    if row < 16 && pen.index + 2 * row + 1 < RAM_SIZE {
      DiagRowHitsOwnCell(pen, row, 0, c);
      DiagFlipsCollapse(pen, row + 1, c);
    }
  }

  /** VF: without a collision no set cell of the screen was cleared. */
  lemma {:induction false} DiagRowNoCollision(pen: Pen, row: nat, sh: Sheet, col: nat)
    requires PenOk(pen) && FullScreen(sh) && pen.index + 2 * row + 1 < RAM_SIZE
    ensures var r := DiagRowFrom(pen, row, sh, col);
      !r.collided ==> !sh.collided && forall i :: 0 <= i < HI_RES_SIZE && sh.cells[i] ==> r.cells[i]
    decreases 16 - col
  {
    if col < 16 {
      var next := if WideBit(pen, row, col) then Toggle(sh, DiagCell(pen, col)) else sh;
      DiagRowNoCollision(pen, row, next, col + 1);
    }
  }

  lemma {:induction false} DiagNoCollision(pen: Pen, sh: Sheet, row: nat)
    requires PenOk(pen) && FullScreen(sh)
    ensures var r := DiagFrom(pen, sh, row).sh;
      !r.collided ==> !sh.collided && forall i :: 0 <= i < HI_RES_SIZE && sh.cells[i] ==> r.cells[i]
    decreases 16 - row
  {
    if row < 16 && pen.index + 2 * row + 1 < RAM_SIZE {
      DiagRowNoCollision(pen, row, sh, 0);
      DiagNoCollision(pen, DiagRowFrom(pen, row, sh, 0), row + 1);
    }
  }

  /** The DXY0 draw on a machine. */
  function ScreenDrawn(m: Machine, xReg: nat, yReg: nat): (p: Painted)
    requires xReg < REGISTER_COUNT && yReg < REGISTER_COUNT
    ensures FullScreen(p.sh)
  {
    DiagFrom(PenOf(m, xReg, yReg), Sheet(m.screen, false), 0)
  }

  /** The machine after DXY0: the screen drawn, VF = 1 exactly on a collision. */
  function AfterPaint(m: Machine, p: Painted): Machine
    requires FullScreen(p.sh)
  {
    m.(registers := m.registers[0xF := if p.sh.collided then 1 else 0], screen := p.sh.cells)
  }

  ghost function SheetNow(ctx: VmContext): Sheet
    reads ctx, ctx.screen, ctx.registers
    requires ctx.Valid()
  {
    Sheet(ctx.screen[..], ctx.registers[0xF] == 1)
  }

  method ToggleScreenCell(ctx: VmContext, idx: nat, ghost regs: seq<Byte>)
    requires ctx.Valid() && idx < HI_RES_SIZE && |regs| == REGISTER_COUNT && OnlyFlag(ctx, regs)
    modifies ctx.registers, ctx.screen
    ensures OnlyFlag(ctx, regs)
    ensures SheetNow(ctx) == Toggle(old(SheetNow(ctx)), idx)
  {
    if ctx.screen[idx] {
      ctx.registers[0xF] := 1;
    }
    ctx.screen[idx] := !ctx.screen[idx];
  }

  /** The column loop of `draw_16x16_sprite` for one row. */
  method DrawDiagRow(ctx: VmContext, xCoord: nat, yCoord: nat, row: nat, ghost regs: seq<Byte>)
    requires ctx.Valid() && |regs| == REGISTER_COUNT && OnlyFlag(ctx, regs)
    requires ctx.index + row * 2 + 1 < RAM_SIZE
    modifies ctx.registers, ctx.screen
    ensures OnlyFlag(ctx, regs)
    ensures SheetNow(ctx) == DiagRowFrom(PenNow(ctx, xCoord, yCoord), row, old(SheetNow(ctx)), 0)
  {
    ghost var pen := PenNow(ctx, xCoord, yCoord);
    ghost var whole := DiagRowFrom(pen, row, SheetNow(ctx), 0);
    var addr := ctx.index + row * 2;
    var pixelsHi := ctx.memory[addr];
    var pixelsLo := ctx.memory[addr + 1];
    for col := 0 to 16
      invariant OnlyFlag(ctx, regs) && PenNow(ctx, xCoord, yCoord) == pen
      invariant DiagRowFrom(pen, row, SheetNow(ctx), col) == whole
    {
      var pixelBit := if col < 8 then MsbBit(pixelsHi, col) else MsbBit(pixelsLo, col - 8);
      assert pixelBit == WideBit(pen, row, col);
      if pixelBit {
        var px := (xCoord + col) % ctx.currentWidth;
        var py := (yCoord + col) % ctx.currentHeight;
        var idxInBuffer := px + py * HI_RES_WIDTH;
        assert idxInBuffer == DiagCell(pen, col);
        ToggleScreenCell(ctx, idxInBuffer, regs);
      }
    }
  }

  /** The row loop of `draw_16x16_sprite`. */
  method DrawDiagRows(ctx: VmContext, xCoord: nat, yCoord: nat, ghost regs: seq<Byte>) returns (halt: Halt)
    requires ctx.Valid() && |regs| == REGISTER_COUNT && OnlyFlag(ctx, regs)
    modifies ctx.registers, ctx.screen
    ensures OnlyFlag(ctx, regs)
    ensures Painted(SheetNow(ctx), halt) == DiagFrom(PenNow(ctx, xCoord, yCoord), old(SheetNow(ctx)), 0)
  {
    ghost var pen := PenNow(ctx, xCoord, yCoord);
    ghost var whole := DiagFrom(pen, SheetNow(ctx), 0);
    for row := 0 to 16
      invariant OnlyFlag(ctx, regs) && PenNow(ctx, xCoord, yCoord) == pen
      invariant DiagFrom(pen, SheetNow(ctx), row) == whole
    {
      var addr := ctx.index + row * 2;
      if addr + 1 >= RAM_SIZE {
        return OutOfBounds(WIDE_OOB);
      }
      DrawDiagRow(ctx, xCoord, yCoord, row, regs);
    }
    return Done;
  }

  /** src/superchip.rs `draw_16x16_sprite` (DXY0). */
  method DrawScreenSprite(ctx: VmContext, xReg: nat, yReg: nat) returns (halt: Halt)
    requires ctx.Valid() && xReg < REGISTER_COUNT && yReg < REGISTER_COUNT
    modifies ctx.registers, ctx.screen
    ensures var p := ScreenDrawn(old(ctx.Snap()), xReg, yReg);
      halt == p.halt && ctx.Snap() == AfterPaint(old(ctx.Snap()), p)
  {
    ghost var m := ctx.Snap();
    ctx.registers[0xF] := 0;
    var xCoord: nat := ctx.registers[xReg];
    var yCoord: nat := ctx.registers[yReg];
    ghost var regs := ctx.registers[..];
    assert PenNow(ctx, xCoord, yCoord) == PenOf(m, xReg, yReg);
    assert SheetNow(ctx) == Sheet(m.screen, false);
    halt := DrawDiagRows(ctx, xCoord, yCoord, regs);
    ghost var p := ScreenDrawn(m, xReg, yReg);
    assert ctx.registers[..] == m.registers[0xF := if p.sh.collided then 1 else 0];
  }

  // ---------------------------------------------------------------- 00CN, 00FB, 00FC

  /** The 64x32 buffer 00CN builds for n < 32: row r takes screen row r - n (64 cells per
      row), rows above n stay clear. */
  function LowResScrolledDown(screen: seq<bool>, n: nat): (buf: seq<bool>)
    requires |screen| == HI_RES_SIZE && n < SCREEN_HEIGHT
    ensures |buf| == LOW_RES_SIZE
  {
    seq(LOW_RES_SIZE, i requires 0 <= i < LOW_RES_SIZE => if i / SCREEN_WIDTH >= n then screen[i - n * SCREEN_WIDTH] else false)
  }

  /** In cell coordinates: buffer cell (c, r) holds screen cell (c, r - n). */
  lemma LowResScrollMovesRows(screen: seq<bool>, n: nat, c: nat, r: nat)
    requires |screen| == HI_RES_SIZE && n < SCREEN_HEIGHT && c < SCREEN_WIDTH && r < SCREEN_HEIGHT
    ensures LowResScrolledDown(screen, n)[c + r * SCREEN_WIDTH] == if r >= n then screen[c + (r - n) * SCREEN_WIDTH] else false
  {
    assert (c + r * SCREEN_WIDTH) / SCREEN_WIDTH == r;
  }

  /** The buffer loop of 00CN (rows copied with `copy_from_slice`). */
  method BuildScrolledDown(ctx: VmContext, n: nat) returns (newScreen: array<bool>)
    requires ctx.Valid() && n < SCREEN_HEIGHT
    ensures fresh(newScreen) && newScreen[..] == LowResScrolledDown(ctx.screen[..], n)
  {
    newScreen := new bool[LOW_RES_SIZE](_ => false);
    for row := 0 to SCREEN_HEIGHT - n
      invariant forall i :: 0 <= i < LOW_RES_SIZE ==>
        newScreen[i] == if n <= i / SCREEN_WIDTH < row + n then ctx.screen[i - n * SCREEN_WIDTH] else false
    {
      var srcStart := row * SCREEN_WIDTH;
      var dstStart := (row + n) * SCREEN_WIDTH;
      forall c | 0 <= c < SCREEN_WIDTH {
        newScreen[dstStart + c] := ctx.screen[srcStart + c];
      }
      assert forall i :: dstStart <= i < dstStart + SCREEN_WIDTH ==> i / SCREEN_WIDTH == row + n;
    }
  }

  /** The 00CN arm. The source first clears the screen when N >= 32, but N is a 4-bit field,
      so it always builds the 64x32 buffer and panics copying it into the 8192-cell screen. */
  method ScrollDownArm(ctx: VmContext, n: nat) returns (r: Outcome)
    requires ctx.Valid() && n < 16
    ensures r == Panicked(COPY_PANIC)
  {
    var newScreen := BuildScrolledDown(ctx, n);
    // `copy_from_slice` requires equal lengths
    assert newScreen.Length != ctx.screen.Length;
    return Panicked(COPY_PANIC);
  }

  /** Where the last screen row (row 31) starts in the 00FB buffer. */
  const LAST_ROW_DST: nat := (SCREEN_HEIGHT + 3) * SCREEN_HEIGHT + 4

  /** Where the 00FB buffer loop writes pixel (c, r) of the screen. */
  function RightDst(r: nat, c: nat): nat { (r + 4) * SCREEN_HEIGHT + 4 + c }

  /** The screen cell whose copy survives in cell j of the 00FB buffer, for
      RightDst(0, 0) <= j < LAST_ROW_DST: only the first 32 pixels of rows 0..30 remain,
      because the next row's copy starts 32 cells further on. */
  function SurvivorOf(j: nat): nat
    requires j >= RightDst(0, 0)
  {
    ((j - 4) / SCREEN_HEIGHT - 4) * SCREEN_WIDTH + (j - 4) % SCREEN_HEIGHT
  }

  /** Each pixel (c, r) with r < 31 and c < 32 survives at RightDst(r, c). */
  lemma SurvivorOfDst(r: nat, c: nat)
    requires r < SCREEN_HEIGHT - 1 && c < SCREEN_HEIGHT
    ensures RightDst(0, 0) <= RightDst(r, c) < LAST_ROW_DST
    ensures SurvivorOf(RightDst(r, c)) == r * SCREEN_WIDTH + c
  {
    assert RightDst(r, c) - 4 == (r + 4) * SCREEN_HEIGHT + c;
  }

  /** The buffer loop of 00FB: row r of the screen is copied, shifted by 4, to offset
      (r + 4) * 32 of a 64x32 buffer, whose rows are 64 cells long, so consecutive rows
      overlap; the buffer is then dropped. No write reaches the first 132 cells, rows 0..30
      keep their first 32 pixels, the last row copied survives whole, and nothing is written
      after it. */
  method BuildScrolledRight(ctx: VmContext) returns (newScreen: array<bool>)
    requires ctx.Valid()
    ensures fresh(newScreen) && newScreen.Length == LOW_RES_SIZE
    ensures forall j :: 0 <= j < RightDst(0, 0) ==> !newScreen[j]
    ensures forall j :: RightDst(0, 0) <= j < LAST_ROW_DST ==> newScreen[j] == ctx.screen[SurvivorOf(j)]
    ensures forall j :: LAST_ROW_DST <= j < LAST_ROW_DST + SCREEN_WIDTH - 4 ==>
      newScreen[j] == ctx.screen[j - LAST_ROW_DST + (SCREEN_HEIGHT - 1) * SCREEN_WIDTH]
    ensures forall j :: LAST_ROW_DST + SCREEN_WIDTH - 4 <= j < LOW_RES_SIZE ==> !newScreen[j]
  {
    newScreen := new bool[LOW_RES_SIZE](_ => false);
    for row := 0 to SCREEN_HEIGHT
      invariant forall j :: 0 <= j < RightDst(0, 0) ==> !newScreen[j]
      invariant forall j :: RightDst(0, 0) <= j < (row + 3) * SCREEN_HEIGHT + 4 ==> newScreen[j] == ctx.screen[SurvivorOf(j)]
      invariant row > 0 ==> forall j :: (row + 3) * SCREEN_HEIGHT + 4 <= j < (row + 3) * SCREEN_HEIGHT + SCREEN_WIDTH ==>
        newScreen[j] == ctx.screen[j - ((row + 3) * SCREEN_HEIGHT + 4) + (row - 1) * SCREEN_WIDTH]
      invariant forall j :: (row + 3) * SCREEN_HEIGHT + SCREEN_WIDTH <= j < LOW_RES_SIZE ==> !newScreen[j]
    {
      var srcRowStart := row * SCREEN_WIDTH;
      var dstRowStart := (row + 4) * SCREEN_HEIGHT;
      forall j | RightDst(0, 0) <= j < dstRowStart + 4
        ensures newScreen[j] == ctx.screen[SurvivorOf(j)]
      {
        if j >= (row + 3) * SCREEN_HEIGHT + 4 {
          assert (j - 4) / SCREEN_HEIGHT == row + 3;
        }
      }
      for col := 0 to SCREEN_WIDTH - 4
        invariant forall j :: 0 <= j < RightDst(0, 0) ==> !newScreen[j]
        invariant forall j :: RightDst(0, 0) <= j < dstRowStart + 4 ==> newScreen[j] == ctx.screen[SurvivorOf(j)]
        invariant forall j :: dstRowStart + 4 <= j < dstRowStart + 4 + col ==>
          newScreen[j] == ctx.screen[j - (dstRowStart + 4) + srcRowStart]
        invariant forall j :: dstRowStart + 4 + col <= j < LOW_RES_SIZE && dstRowStart + SCREEN_HEIGHT <= j ==> !newScreen[j]
      {
        var src := srcRowStart + col;
        var dst := dstRowStart + col + 4;
        newScreen[dst] := ctx.screen[src];
      }
    }
  }

  // ---------------------------------------------------------------- FX75 / FX85

  /** How many of the 0..=x transfers of FX75/FX85 happen before the flag index runs out. */
  function Transfers(x: nat): (n: nat)
    ensures n <= FLAG_COUNT && n <= x + 1
    ensures n == x + 1 || n == FLAG_COUNT
  {
    if x < FLAG_COUNT then x + 1 else FLAG_COUNT
  }

  /** FX75: V0..Vx are copied to the flag registers; for x >= 8 the ninth copy panics. */
  function FlagsSaved(m: Machine, x: nat): Step
    requires x < REGISTER_COUNT
  {
    var n := Transfers(x);
    var after := m.(rplFlags := m.registers[..n] + m.rplFlags[n..]);
    Step(if x < FLAG_COUNT then Ok(true) else Panicked(INDEX_PANIC), after)
  }

  /** FX85: the flag registers are copied back to V0..Vx; same panic. */
  function FlagsLoaded(m: Machine, x: nat): Step
    requires x < REGISTER_COUNT
  {
    var n := Transfers(x);
    var after := m.(registers := m.rplFlags[..n] + m.registers[n..]);
    Step(if x < FLAG_COUNT then Ok(true) else Panicked(INDEX_PANIC), after)
  }

  /** FX75 followed by FX85 with the same X gives back the registers and leaves the flags
      as FX75 stored them. */
  lemma FlagsRoundTrip(m: Machine, x: nat)
    requires x < REGISTER_COUNT
    ensures var s := FlagsSaved(m, x).after;
      var l := FlagsLoaded(s, x).after;
      l.registers == m.registers && l.rplFlags == s.rplFlags &&
      s.rplFlags[..Transfers(x)] == m.registers[..Transfers(x)]
  {
    var n := Transfers(x);
    var s := FlagsSaved(m, x).after;
    assert s.rplFlags[..n] == m.registers[..n];
    assert s.rplFlags[..n] + m.registers[n..] == m.registers;
  }

  /** The loop of FX75. */
  method SaveFlags(ctx: VmContext, x: nat) returns (r: Outcome)
    requires ctx.Valid() && x < REGISTER_COUNT
    modifies ctx.rplFlags
    ensures Step(r, ctx.Snap()) == FlagsSaved(old(ctx.Snap()), x)
  {
    ghost var m := ctx.Snap();
    for i := 0 to x + 1
      invariant i <= FLAG_COUNT
      invariant forall j :: 0 <= j < FLAG_COUNT ==> ctx.rplFlags[j] == if j < i then m.registers[j] else m.rplFlags[j]
    {
      if i >= FLAG_COUNT {
        assert ctx.rplFlags[..] == m.registers[..FLAG_COUNT] + m.rplFlags[FLAG_COUNT..];
        return Panicked(INDEX_PANIC);
      }
      ctx.rplFlags[i] := ctx.registers[i];
    }
    assert ctx.rplFlags[..] == m.registers[..x + 1] + m.rplFlags[x + 1..];
    return Ok(true);
  }

  /** The loop of FX85. */
  method LoadFlags(ctx: VmContext, x: nat) returns (r: Outcome)
    requires ctx.Valid() && x < REGISTER_COUNT
    modifies ctx.registers
    ensures Step(r, ctx.Snap()) == FlagsLoaded(old(ctx.Snap()), x)
  {
    ghost var m := ctx.Snap();
    for i := 0 to x + 1
      invariant i <= FLAG_COUNT
      invariant forall j :: 0 <= j < REGISTER_COUNT ==> ctx.registers[j] == if j < i then m.rplFlags[j] else m.registers[j]
    {
      if i >= FLAG_COUNT {
        assert ctx.registers[..] == m.rplFlags[..FLAG_COUNT] + m.registers[FLAG_COUNT..];
        return Panicked(INDEX_PANIC);
      }
      ctx.registers[i] := ctx.rplFlags[i];
    }
    assert ctx.registers[..] == m.rplFlags[..x + 1] + m.registers[x + 1..];
    return Ok(true);
  }

  // ---------------------------------------------------------------- the handler

  /** `handle_instruction` of the Super-CHIP extension on a machine value. */
  function SuperChipStep(active: bool, m: Machine, op: Word): Step
  {
    if !active then Step(Ok(false), m)
    else
      var d1, x, y, n := D1(op), D2(op), D3(op), D4(op);
      if d1 == 0 && x == 0 && y == 0xF && n == 0xD then Step(Err(SCHIP_EXIT_MSG), m)
      else if d1 == 0 && x == 0 && y == 0xF && n == 0xE then Step(Ok(true), m.(width := SCREEN_WIDTH, height := SCREEN_HEIGHT))
      else if d1 == 0 && x == 0 && y == 0xF && n == 0xF then Step(Ok(true), m.(width := HI_RES_WIDTH, height := HI_RES_HEIGHT))
      else if d1 == 0xD && n == 0 then
        var p := ScreenDrawn(m, x, y);
        Step(if p.failed() then Err(p.halt.msg) else Ok(true), AfterPaint(m, p))
      else if d1 == 0 && x == 0 && y == 0xC then Step(Panicked(COPY_PANIC), m)
      else if d1 == 0 && x == 0 && y == 0xF && n == 0xB then Step(Ok(true), m)
      else if d1 == 0 && x == 0 && y == 0xF && n == 0xC then Step(Panicked(UNDERFLOW_PANIC), m)
      else if d1 == 0xF && y == 3 && n == 0 then Step(Ok(true), m.(index := LARGE_FONT_BASE_ADDR + m.registers[x] as int * 10))
      else if d1 == 0xF && y == 7 && n == 5 then FlagsSaved(m, x)
      else if d1 == 0xF && y == 8 && n == 5 then FlagsLoaded(m, x)
      else Step(Ok(false), m)
  }

  /** The extension as the dispatcher sees it. */
  function SuperChipExtension(active: bool): (e: Extension)
    ensures e.active == active
  {
    Extension("Super-CHIP", active, (m: Machine, op: Word) => SuperChipStep(active, m, op))
  }

  /** A Super-CHIP opcode the handler claims. */
  predicate SuperChipClaims(op: Word)
  {
    var d1, x, y, n := D1(op), D2(op), D3(op), D4(op);
    || (d1 == 0 && x == 0 && y == 0xF && n in {0xB, 0xC, 0xD, 0xE, 0xF})
    || (d1 == 0 && x == 0 && y == 0xC)
    || (d1 == 0xD && n == 0)
    || (d1 == 0xF && ((y == 3 && n == 0) || (y in {7, 8} && n == 5)))
  }

  /** The handler passes an opcode on exactly when it does not claim it, and passing on
      changes nothing. */
  lemma SuperChipDeclinesExactly(m: Machine, op: Word)
    ensures SuperChipStep(true, m, op).outcome == Ok(false) <==> !SuperChipClaims(op)
    ensures DeclinesCleanly(SuperChipExtension(true)) && DeclinesCleanly(SuperChipExtension(false))
  {
    forall a: bool, m': Machine, op': Word | SuperChipStep(a, m', op').outcome == Ok(false)
      ensures SuperChipStep(a, m', op').after == m'
    {
    }
  }

  /** Super-CHIP opcodes leave the program counter, stack, timers, keys and XO-CHIP planes
      alone; the viewport arms change nothing but the viewport. */
  lemma SuperChipLeavesControlAlone(active: bool, m: Machine, op: Word)
    ensures var a := SuperChipStep(active, m, op).after;
      a.pc == m.pc && a.stack == m.stack && a.sp == m.sp && a.keys == m.keys &&
      a.delayTimer == m.delayTimer && a.soundTimer == m.soundTimer &&
      a.plane1 == m.plane1 && a.plane2 == m.plane2 && a.planeMask == m.planeMask
    ensures active && op in {0x00FE, 0x00FF} ==>
      SuperChipStep(active, m, op).after == m.(width := SuperChipStep(active, m, op).after.width,
                                                 height := SuperChipStep(active, m, op).after.height)
  {
  }

  /** The Super-CHIP extension object of src/superchip.rs. */
  class SuperChip8 {
    var active: bool

    constructor (active: bool)
      ensures this.active == active
    {
      this.active := active;
    }

    /** src/superchip.rs `handle_instruction`. */
    method HandleInstruction(ctx: VmContext, op: Word) returns (r: Outcome)
      requires ctx.Valid()
      modifies ctx, ctx.registers, ctx.screen, ctx.rplFlags
      ensures ctx.Valid() && Step(r, ctx.Snap()) == SuperChipStep(active, old(ctx.Snap()), op)
    {
      if !active {
        return Ok(false);
      }
      var d1, x, y, n := D1(op), D2(op), D3(op), D4(op);
      if d1 == 0 && x == 0 && y == 0xF && n == 0xD {
        r := Err(SCHIP_EXIT_MSG);
      } else if d1 == 0 && x == 0 && y == 0xF && n == 0xE {
        ctx.currentWidth := SCREEN_WIDTH;
        ctx.currentHeight := SCREEN_HEIGHT;
        r := Ok(true);
      } else if d1 == 0 && x == 0 && y == 0xF && n == 0xF {
        ctx.currentWidth := HI_RES_WIDTH;
        ctx.currentHeight := HI_RES_HEIGHT;
        r := Ok(true);
      } else if d1 == 0xD && n == 0 {
        var halt := DrawScreenSprite(ctx, x, y);
        r := if halt.OutOfBounds? then Err(halt.msg) else Ok(true);
      } else if d1 == 0 && x == 0 && y == 0xC {
        r := ScrollDownArm(ctx, n);
      } else if d1 == 0 && x == 0 && y == 0xF && n == 0xB {
        var discarded := BuildScrolledRight(ctx);
        r := Ok(true);
      } else if d1 == 0 && x == 0 && y == 0xF && n == 0xC {
        // the first destination index is 0 - 4
        r := Panicked(UNDERFLOW_PANIC);
      } else if d1 == 0xF && y == 3 && n == 0 {
        ctx.index := LARGE_FONT_BASE_ADDR + ctx.registers[x] as int * 10;
        r := Ok(true);
      } else if d1 == 0xF && y == 7 && n == 5 {
        r := SaveFlags(ctx, x);
      } else if d1 == 0xF && y == 8 && n == 5 {
        r := LoadFlags(ctx, x);
      } else {
        r := Ok(false);
      }
    }
  }
}
