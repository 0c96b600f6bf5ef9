/** The XO-CHIP sprite draws of src/xo.rs: DXYK (`draw_sprite`, 8 pixels by K rows) and DXY0
    (`draw_16x16_sprite`), which XOR-toggle cells of the selected bit-planes.

    Each draw is specified by a fold that walks the sprite in the source's order (rows, then
    columns) over a `Canvas` - the two planes and the collision flag that becomes VF. The
    folds are written "from position k to the end", so a loop invariant can say that what is
    left to draw from the current canvas gives the same result as the whole draw from the
    initial one. A draw that runs off the end of memory stops with the rows already drawn
    left in place. */
module XoDraw {
  import opened Conf
  import opened Extensions
  import opened XoPlanes

  /** The two planes and the collision flag (VF = 1) while a sprite is being drawn. */
  datatype Canvas = Canvas(p1: seq<bool>, p2: seq<bool>, collided: bool)

  predicate FullSize(cv: Canvas)
  {
    |cv.p1| == XO_SCREEN_SIZE && |cv.p2| == XO_SCREEN_SIZE
  }

  /** Everything a draw reads besides the canvas; none of it changes during the draw. */
  datatype Pen = Pen(memory: seq<Byte>, index: nat, x: nat, y: nat, width: nat, height: nat, mask: Byte)

  predicate PenOk(pen: Pen)
  {
    |pen.memory| == RAM_SIZE && Viewport(pen.width, pen.height)
  }

  /** How a draw ends: after its last row, or at an out-of-bounds read with the message the
      source reports. */
  datatype Halt = Done | OutOfBounds(msg: string)

  const SPRITE_OOB := "Memory access out of bounds for sprite draw"
  const WIDE_OOB := "Memory access out of bounds for 16x16 sprite draw"
  const PLANE2_OOB := "Memory access out of bounds for 16x16 sprite plane 2"

  /** The canvas a draw leaves, and how the draw ended. */
  datatype Drawn = Drawn(cv: Canvas, halt: Halt)
  {
    predicate failed() { halt.OutOfBounds? }
  }

  /** Plane cell of sprite pixel (col, row): coordinates wrap around the viewport, and the
      row stride is XO_RES_WIDTH whatever the viewport. */
  function Cell(pen: Pen, col: nat, row: nat): (idx: nat)
    requires PenOk(pen)
    ensures idx < XO_SCREEN_SIZE
  {
    (pen.x + col) % pen.width + ((pen.y + row) % pen.height) * XO_RES_WIDTH
  }

  /** Toggles cell idx in plane 1 when t1 and in plane 2 when t2; a toggle that clears a set
      cell is a collision. */
  function Plot(cv: Canvas, idx: nat, t1: bool, t2: bool): (r: Canvas)
    requires FullSize(cv) && idx < XO_SCREEN_SIZE
    ensures FullSize(r)
  {
    Canvas(if t1 then cv.p1[idx := !cv.p1[idx]] else cv.p1,
           if t2 then cv.p2[idx := !cv.p2[idx]] else cv.p2,
           cv.collided || (t1 && cv.p1[idx]) || (t2 && cv.p2[idx]))
  }

  // ---------------------------------------------------------------- DXYK

  /** Columns col..8 of one sprite row with pixel byte `bits`. */
  function SpriteRowFrom(pen: Pen, row: nat, bits: Byte, cv: Canvas, col: nat): (r: Canvas)
    requires PenOk(pen) && FullSize(cv)
    ensures FullSize(r)
    decreases 8 - col
  {
    if col >= 8 then cv
    else
      var next := if MsbBit(bits, col) then Plot(cv, Cell(pen, col, row), SelectsPlane1(pen.mask), SelectsPlane2(pen.mask)) else cv;
      SpriteRowFrom(pen, row, bits, next, col + 1)
  }

  /** Rows row..k of a K-row sprite read from memory at I: a row whose address is past the
      end of memory stops the draw with an error. */
  function SpriteFrom(pen: Pen, k: nat, cv: Canvas, row: nat): (r: Drawn)
    requires PenOk(pen) && FullSize(cv)
    ensures FullSize(r.cv)
    decreases k - row
  {
    if row >= k then Drawn(cv, Done)
    else if pen.index + row >= RAM_SIZE then Drawn(cv, OutOfBounds(SPRITE_OOB))
    else SpriteFrom(pen, k, SpriteRowFrom(pen, row, pen.memory[pen.index + row], cv, 0), row + 1)
  }

  /** Whether sprite row `row` (pixel byte `bits`) toggles cell i an odd number of times from
      column col on. */
  function SpriteRowFlips(pen: Pen, row: nat, bits: Byte, col: nat, i: nat): bool
    requires PenOk(pen)
    decreases 8 - col
  {
    if col >= 8 then false
    else (MsbBit(bits, col) && Cell(pen, col, row) == i) != SpriteRowFlips(pen, row, bits, col + 1, i)
  }

  /** Whether rows row..k toggle cell i an odd number of times (rows after an out-of-bounds
      row are never drawn). */
  function SpriteFlips(pen: Pen, k: nat, row: nat, i: nat): bool
    requires PenOk(pen)
    decreases k - row
  {
    if row >= k || pen.index + row >= RAM_SIZE then false
    else SpriteRowFlips(pen, row, pen.memory[pen.index + row], 0, i) != SpriteFlips(pen, k, row + 1, i)
  }

  /** Closed form of one row: a selected plane's cell ends flipped exactly when the row
      toggles it an odd number of times. */
  lemma {:induction false} SpriteRowParity(pen: Pen, row: nat, bits: Byte, cv: Canvas, col: nat, i: nat)
    requires PenOk(pen) && FullSize(cv) && i < XO_SCREEN_SIZE
    ensures SpriteRowFrom(pen, row, bits, cv, col).p1[i] == (cv.p1[i] != (SelectsPlane1(pen.mask) && SpriteRowFlips(pen, row, bits, col, i)))
    ensures SpriteRowFrom(pen, row, bits, cv, col).p2[i] == (cv.p2[i] != (SelectsPlane2(pen.mask) && SpriteRowFlips(pen, row, bits, col, i)))
    decreases 8 - col
  {
    if col < 8 {
      var next := if MsbBit(bits, col) then Plot(cv, Cell(pen, col, row), SelectsPlane1(pen.mask), SelectsPlane2(pen.mask)) else cv;
      SpriteRowParity(pen, row, bits, next, col + 1, i);
    }
  }

  /** Closed form of a whole DXYK draw. */
  lemma {:induction false} SpriteParity(pen: Pen, k: nat, cv: Canvas, row: nat, i: nat)
    requires PenOk(pen) && FullSize(cv) && i < XO_SCREEN_SIZE
    ensures SpriteFrom(pen, k, cv, row).cv.p1[i] == (cv.p1[i] != (SelectsPlane1(pen.mask) && SpriteFlips(pen, k, row, i)))
    ensures SpriteFrom(pen, k, cv, row).cv.p2[i] == (cv.p2[i] != (SelectsPlane2(pen.mask) && SpriteFlips(pen, k, row, i)))
    decreases k - row
  {
    if row < k && pen.index + row < RAM_SIZE {
      var bits := pen.memory[pen.index + row];
      SpriteRowParity(pen, row, bits, cv, 0, i);
      SpriteParity(pen, k, SpriteRowFrom(pen, row, bits, cv, 0), row + 1, i);
    }
  }

  /** Drawing the same DXYK sprite twice restores both planes (XOR is its own inverse);
      this holds even when the draws stop at an out-of-bounds row, since both stop there. */
  lemma SpriteTwiceRestores(pen: Pen, k: nat, cv: Canvas)
    requires PenOk(pen) && FullSize(cv)
    ensures SpriteFrom(pen, k, SpriteFrom(pen, k, cv, 0).cv, 0).cv.p1 == cv.p1
    ensures SpriteFrom(pen, k, SpriteFrom(pen, k, cv, 0).cv, 0).cv.p2 == cv.p2
  {
    var once := SpriteFrom(pen, k, cv, 0).cv;
    forall i | 0 <= i < XO_SCREEN_SIZE
      ensures SpriteFrom(pen, k, once, 0).cv.p1[i] == cv.p1[i]
      ensures SpriteFrom(pen, k, once, 0).cv.p2[i] == cv.p2[i]
    {
      SpriteParity(pen, k, cv, 0, i);
      SpriteParity(pen, k, once, 0, i);
    }
  }

  /** The draw stops with an error exactly when the last row's address I + k - 1 is past the
      end of memory. */
  lemma {:induction false} SpriteFailsIff(pen: Pen, k: nat, cv: Canvas, row: nat)
    requires PenOk(pen) && FullSize(cv)
    ensures SpriteFrom(pen, k, cv, row).failed() <==> row < k && pen.index + k > RAM_SIZE
    decreases k - row
  {
    if row < k && pen.index + row < RAM_SIZE {
      SpriteFailsIff(pen, k, SpriteRowFrom(pen, row, pen.memory[pen.index + row], cv, 0), row + 1);
    }
  }

  /** A draw that runs off the end of memory leaves exactly what drawing only the rows that
      fit (the first `RAM_SIZE - I`, or none) would leave. */
  lemma {:induction false} SpriteFailureKeepsRows(pen: Pen, k: nat, cv: Canvas, row: nat)
    requires PenOk(pen) && FullSize(cv) && k >= 1 && pen.index + k > RAM_SIZE
    requires row <= Fit(pen.index)
    ensures SpriteFrom(pen, k, cv, row) == Drawn(SpriteFrom(pen, Fit(pen.index), cv, row).cv, OutOfBounds(SPRITE_OOB))
    decreases k - row
  {
    if row < Fit(pen.index) {
      SpriteFailureKeepsRows(pen, k, SpriteRowFrom(pen, row, pen.memory[pen.index + row], cv, 0), row + 1);
    }
  }

  /** Number of rows of a sprite at I that lie in memory. */
  function Fit(index: nat): nat
  {
    if index >= RAM_SIZE then 0 else RAM_SIZE - index
  }

  /** Without a collision no set cell is cleared: every toggle turned a cell on. */
  lemma {:induction false} SpriteRowNoCollision(pen: Pen, row: nat, bits: Byte, cv: Canvas, col: nat)
    requires PenOk(pen) && FullSize(cv)
    ensures var r := SpriteRowFrom(pen, row, bits, cv, col);
      !r.collided ==> !cv.collided && forall i :: 0 <= i < XO_SCREEN_SIZE ==> (cv.p1[i] ==> r.p1[i]) && (cv.p2[i] ==> r.p2[i])
    decreases 8 - col
  {
    if col < 8 {
      var next := if MsbBit(bits, col) then Plot(cv, Cell(pen, col, row), SelectsPlane1(pen.mask), SelectsPlane2(pen.mask)) else cv;
      SpriteRowNoCollision(pen, row, bits, next, col + 1);
    }
  }

  lemma {:induction false} SpriteNoCollision(pen: Pen, k: nat, cv: Canvas, row: nat)
    requires PenOk(pen) && FullSize(cv)
    ensures var r := SpriteFrom(pen, k, cv, row).cv;
      !r.collided ==> !cv.collided && forall i :: 0 <= i < XO_SCREEN_SIZE ==> (cv.p1[i] ==> r.p1[i]) && (cv.p2[i] ==> r.p2[i])
    decreases k - row
  {
    if row < k && pen.index + row < RAM_SIZE {
      var bits := pen.memory[pen.index + row];
      SpriteRowNoCollision(pen, row, bits, cv, 0);
      SpriteNoCollision(pen, k, SpriteRowFrom(pen, row, bits, cv, 0), row + 1);
    }
  }

  // ---------------------------------------------------------------- DXY0

  /** Bit `col` of a 16-pixel sprite row stored as two bytes, leftmost pixel first. */
  function Bit16(hi: Byte, lo: Byte, col: nat): bool
    requires col < 16
  {
    if col < 8 then MsbBit(hi, col) else MsbBit(lo, col - 8)
  }

  /** Plane-1 bit of pixel (col, row) of the 16x16 bitmap at I (two bytes per row). */
  function WideBit(pen: Pen, row: nat, col: nat): bool
    requires PenOk(pen) && col < 16 && pen.index + 2 * row + 1 < RAM_SIZE
  {
    Bit16(pen.memory[pen.index + 2 * row], pen.memory[pen.index + 2 * row + 1], col)
  }

  /** With plane mask 3 the plane-2 bits come from a second bitmap at I + 32; a row of it
      past the end of memory makes the draw fail at that row's first set plane-1 pixel. */
  predicate Plane2RowMissing(pen: Pen, row: nat)
  {
    pen.mask == 3 && pen.index + 32 + 2 * row + 1 >= RAM_SIZE
  }

  /** Plane-2 bit of a pixel whose plane-1 bit is set: the second bitmap's bit when the mask
      is 3, the plane-1 bit (so: set) otherwise. */
  function Plane2Bit(pen: Pen, row: nat, col: nat): bool
    requires PenOk(pen) && col < 16
  {
    if pen.mask != 3 then true
    else if pen.index + 32 + 2 * row + 1 < RAM_SIZE then
      Bit16(pen.memory[pen.index + 32 + 2 * row], pen.memory[pen.index + 32 + 2 * row + 1], col)
    else false
  }

  /** Columns col..16 of row `row` of a DXY0 draw. */
  function WideRowFrom(pen: Pen, row: nat, cv: Canvas, col: nat): (r: Drawn)
    requires PenOk(pen) && FullSize(cv) && pen.index + 2 * row + 1 < RAM_SIZE
    ensures FullSize(r.cv)
    decreases 16 - col
  {
    if col >= 16 then Drawn(cv, Done)
    else if !WideBit(pen, row, col) then WideRowFrom(pen, row, cv, col + 1)
    else
      var idx := Cell(pen, col, row);
      var cv1 := Plot(cv, idx, SelectsPlane1(pen.mask), false);
      if !SelectsPlane2(pen.mask) then WideRowFrom(pen, row, cv1, col + 1)
      else if Plane2RowMissing(pen, row) then Drawn(cv1, OutOfBounds(PLANE2_OOB))
      else WideRowFrom(pen, row, Plot(cv1, idx, false, Plane2Bit(pen, row, col)), col + 1)
  }

  /** Rows row..16 of a DXY0 draw: a row whose two bytes are not both in memory stops the
      draw with an error. */
  function WideFrom(pen: Pen, cv: Canvas, row: nat): (r: Drawn)
    requires PenOk(pen) && FullSize(cv)
    ensures FullSize(r.cv)
    decreases 16 - row
  {
    if row >= 16 then Drawn(cv, Done)
    else if pen.index + 2 * row + 1 >= RAM_SIZE then Drawn(cv, OutOfBounds(WIDE_OOB))
    else
      var d := WideRowFrom(pen, row, cv, 0);
      if d.failed() then d else WideFrom(pen, d.cv, row + 1)
  }

  /** Some pixel of the row at column col or later is set in the plane-1 bitmap. */
  predicate HasBitFrom(pen: Pen, row: nat, col: nat)
    requires PenOk(pen) && pen.index + 2 * row + 1 < RAM_SIZE
    decreases 16 - col
  {
    col < 16 && (WideBit(pen, row, col) || HasBitFrom(pen, row, col + 1))
  }

  /** Whether a row stops the draw: plane 2 is selected, the row is missing from the plane-2
      bitmap, and the row has a set plane-1 pixel. */
  predicate WideRowStops(pen: Pen, row: nat)
    requires PenOk(pen) && pen.index + 2 * row + 1 < RAM_SIZE
  {
    SelectsPlane2(pen.mask) && Plane2RowMissing(pen, row) && HasBitFrom(pen, row, 0)
  }

  /** Odd number of plane-1 toggles of cell i from column col of the row on. */
  function WideRowFlips1(pen: Pen, row: nat, col: nat, i: nat): bool
    requires PenOk(pen) && pen.index + 2 * row + 1 < RAM_SIZE
    decreases 16 - col
  {
    if col >= 16 then false
    else if !WideBit(pen, row, col) then WideRowFlips1(pen, row, col + 1, i)
    else
      (Cell(pen, col, row) == i) !=
        (if SelectsPlane2(pen.mask) && Plane2RowMissing(pen, row) then false else WideRowFlips1(pen, row, col + 1, i))
  }

  /** Odd number of plane-2 toggles of cell i from column col of the row on. */
  function WideRowFlips2(pen: Pen, row: nat, col: nat, i: nat): bool
    requires PenOk(pen) && pen.index + 2 * row + 1 < RAM_SIZE
    decreases 16 - col
  {
    if col >= 16 then false
    else if !WideBit(pen, row, col) then WideRowFlips2(pen, row, col + 1, i)
    else if SelectsPlane2(pen.mask) && Plane2RowMissing(pen, row) then false
    else (Plane2Bit(pen, row, col) && Cell(pen, col, row) == i) != WideRowFlips2(pen, row, col + 1, i)
  }

  function WideFlips1(pen: Pen, row: nat, i: nat): bool
    requires PenOk(pen)
    decreases 16 - row
  {
    if row >= 16 || pen.index + 2 * row + 1 >= RAM_SIZE then false
    else WideRowFlips1(pen, row, 0, i) != (if WideRowStops(pen, row) then false else WideFlips1(pen, row + 1, i))
  }

  function WideFlips2(pen: Pen, row: nat, i: nat): bool
    requires PenOk(pen)
    decreases 16 - row
  {
    if row >= 16 || pen.index + 2 * row + 1 >= RAM_SIZE then false
    else WideRowFlips2(pen, row, 0, i) != (if WideRowStops(pen, row) then false else WideFlips2(pen, row + 1, i))
  }

  /** Closed form of one DXY0 row, including where it stops. */
  lemma {:induction false} WideRowParity(pen: Pen, row: nat, cv: Canvas, col: nat, i: nat)
    requires PenOk(pen) && FullSize(cv) && pen.index + 2 * row + 1 < RAM_SIZE && i < XO_SCREEN_SIZE
    ensures WideRowFrom(pen, row, cv, col).failed() == (SelectsPlane2(pen.mask) && Plane2RowMissing(pen, row) && HasBitFrom(pen, row, col))
    ensures WideRowFrom(pen, row, cv, col).cv.p1[i] == (cv.p1[i] != (SelectsPlane1(pen.mask) && WideRowFlips1(pen, row, col, i)))
    ensures WideRowFrom(pen, row, cv, col).cv.p2[i] == (cv.p2[i] != (SelectsPlane2(pen.mask) && WideRowFlips2(pen, row, col, i)))
    decreases 16 - col
  {
    if col < 16 {
      if !WideBit(pen, row, col) {
        WideRowParity(pen, row, cv, col + 1, i);
      } else {
        var idx := Cell(pen, col, row);
        var cv1 := Plot(cv, idx, SelectsPlane1(pen.mask), false);
        if !SelectsPlane2(pen.mask) {
          WideRowParity(pen, row, cv1, col + 1, i);
        } else if !Plane2RowMissing(pen, row) {
          WideRowParity(pen, row, Plot(cv1, idx, false, Plane2Bit(pen, row, col)), col + 1, i);
        }
      }
    }
  }

  /** Closed form of a whole DXY0 draw. */
  lemma {:induction false} WideParity(pen: Pen, cv: Canvas, row: nat, i: nat)
    requires PenOk(pen) && FullSize(cv) && i < XO_SCREEN_SIZE
    ensures WideFrom(pen, cv, row).cv.p1[i] == (cv.p1[i] != (SelectsPlane1(pen.mask) && WideFlips1(pen, row, i)))
    ensures WideFrom(pen, cv, row).cv.p2[i] == (cv.p2[i] != (SelectsPlane2(pen.mask) && WideFlips2(pen, row, i)))
    decreases 16 - row
  {
    if row < 16 && pen.index + 2 * row + 1 < RAM_SIZE {
      WideRowParity(pen, row, cv, 0, i);
      var d := WideRowFrom(pen, row, cv, 0);
      if !d.failed() {
        WideParity(pen, d.cv, row + 1, i);
      }
    }
  }

  /** Drawing the same DXY0 sprite twice restores both planes. */
  lemma WideTwiceRestores(pen: Pen, cv: Canvas)
    requires PenOk(pen) && FullSize(cv)
    ensures WideFrom(pen, WideFrom(pen, cv, 0).cv, 0).cv.p1 == cv.p1
    ensures WideFrom(pen, WideFrom(pen, cv, 0).cv, 0).cv.p2 == cv.p2
  {
    var once := WideFrom(pen, cv, 0).cv;
    forall i | 0 <= i < XO_SCREEN_SIZE
      ensures WideFrom(pen, once, 0).cv.p1[i] == cv.p1[i]
      ensures WideFrom(pen, once, 0).cv.p2[i] == cv.p2[i]
    {
      WideParity(pen, cv, 0, i);
      WideParity(pen, once, 0, i);
    }
  }

  /** Plane 2 only changes at cells where some set plane-1 pixel of the sprite lands. */
  lemma {:induction false} WideRowPlane2WithinSprite(pen: Pen, row: nat, col: nat, i: nat)
    requires PenOk(pen) && pen.index + 2 * row + 1 < RAM_SIZE
    requires forall c :: col <= c < 16 && WideBit(pen, row, c) ==> Cell(pen, c, row) != i
    ensures !WideRowFlips2(pen, row, col, i)
    decreases 16 - col
  {
    if col < 16 {
      WideRowPlane2WithinSprite(pen, row, col + 1, i);
    }
  }

  lemma {:induction false} WidePlane2WithinSprite(pen: Pen, cv: Canvas, row: nat, i: nat)
    requires PenOk(pen) && FullSize(cv) && i < XO_SCREEN_SIZE
    requires forall r, c :: row <= r < 16 && c < 16 && pen.index + 2 * r + 1 < RAM_SIZE && WideBit(pen, r, c) ==> Cell(pen, c, r) != i
    ensures WideFrom(pen, cv, row).cv.p2[i] == cv.p2[i]
    decreases 16 - row
  {
    if row < 16 && pen.index + 2 * row + 1 < RAM_SIZE {
      WideRowPlane2WithinSprite(pen, row, 0, i);
      WideRowParity(pen, row, cv, 0, i);
      var d := WideRowFrom(pen, row, cv, 0);
      if !d.failed() {
        WidePlane2WithinSprite(pen, d.cv, row + 1, i);
      }
    }
  }

  /** Unless the mask is 3, the draw fails exactly when the last row's second byte, at
      I + 31, is past the end of memory, and the error is then the first-bitmap one. */
  lemma {:induction false} WideFailsIff(pen: Pen, cv: Canvas, row: nat)
    requires PenOk(pen) && FullSize(cv) && pen.mask != 3
    ensures WideFrom(pen, cv, row).failed() <==> row < 16 && pen.index + 31 >= RAM_SIZE
    ensures WideFrom(pen, cv, row).failed() ==> WideFrom(pen, cv, row).halt.msg == WIDE_OOB
    decreases 16 - row
  {
    if row < 16 && pen.index + 2 * row + 1 < RAM_SIZE {
      WideRowParity(pen, row, cv, 0, 0);
      WideFailsIff(pen, WideRowFrom(pen, row, cv, 0).cv, row + 1);
    }
  }

  // ---------------------------------------------------------------- on the machine

  /** What a draw reads from the machine: VF is cleared before Vx and Vy are read, so a
      sprite placed by VF itself is drawn at coordinate 0. */
  function PenOf(m: Machine, xReg: nat, yReg: nat): (pen: Pen)
    requires xReg < REGISTER_COUNT && yReg < REGISTER_COUNT
    ensures PenOk(pen)
  {
    var regs := m.registers[0xF := 0];
    Pen(m.memory, m.index, regs[xReg], regs[yReg], m.width, m.height, m.planeMask)
  }

  /** The machine after a draw: the planes drawn, VF = 1 exactly on a collision, and
      nothing else changed. */
  function AfterDraw(m: Machine, d: Drawn): Machine
    requires FullSize(d.cv)
  {
    m.(registers := m.registers[0xF := if d.cv.collided then 1 else 0], plane1 := d.cv.p1, plane2 := d.cv.p2)
  }

  /** src/xo.rs `draw_sprite` (DXYK) on a machine. */
  function SpriteDrawn(m: Machine, xReg: nat, yReg: nat, k: nat): (d: Drawn)
    requires xReg < REGISTER_COUNT && yReg < REGISTER_COUNT
    ensures FullSize(d.cv)
  {
    SpriteFrom(PenOf(m, xReg, yReg), k, Canvas(m.plane1, m.plane2, false), 0)
  }

  /** src/xo.rs `draw_16x16_sprite` (DXY0) on a machine. */
  function WideDrawn(m: Machine, xReg: nat, yReg: nat): (d: Drawn)
    requires xReg < REGISTER_COUNT && yReg < REGISTER_COUNT
    ensures FullSize(d.cv)
  {
    WideFrom(PenOf(m, xReg, yReg), Canvas(m.plane1, m.plane2, false), 0)
  }

  /** A second identical DXYK draw reads the same pen, so it restores both planes; the
      registers other than VF are untouched by either draw. */
  lemma SpriteDrawnTwice(m: Machine, xReg: nat, yReg: nat, k: nat)
    requires xReg < REGISTER_COUNT && yReg < REGISTER_COUNT
    ensures var m1 := AfterDraw(m, SpriteDrawn(m, xReg, yReg, k));
      var m2 := AfterDraw(m1, SpriteDrawn(m1, xReg, yReg, k));
      m2.plane1 == m.plane1 && m2.plane2 == m.plane2 && m2.registers == m.registers[0xF := m2.registers[0xF]]
  {
    var m1 := AfterDraw(m, SpriteDrawn(m, xReg, yReg, k));
    var m2 := AfterDraw(m1, SpriteDrawn(m1, xReg, yReg, k));
    var pen := PenOf(m, xReg, yReg);
    assert m1.registers[0xF := 0] == m.registers[0xF := 0];
    assert PenOf(m1, xReg, yReg) == pen;
    forall i | 0 <= i < XO_SCREEN_SIZE
      ensures m2.plane1[i] == m.plane1[i] && m2.plane2[i] == m.plane2[i]
    {
      SpriteParity(pen, k, Canvas(m.plane1, m.plane2, false), 0, i);
      SpriteParity(pen, k, Canvas(m1.plane1, m1.plane2, false), 0, i);
    }
  }

  /** The same for DXY0. */
  lemma WideDrawnTwice(m: Machine, xReg: nat, yReg: nat)
    requires xReg < REGISTER_COUNT && yReg < REGISTER_COUNT
    ensures var m1 := AfterDraw(m, WideDrawn(m, xReg, yReg));
      var m2 := AfterDraw(m1, WideDrawn(m1, xReg, yReg));
      m2.plane1 == m.plane1 && m2.plane2 == m.plane2 && m2.registers == m.registers[0xF := m2.registers[0xF]]
  {
    var m1 := AfterDraw(m, WideDrawn(m, xReg, yReg));
    var m2 := AfterDraw(m1, WideDrawn(m1, xReg, yReg));
    var pen := PenOf(m, xReg, yReg);
    assert m1.registers[0xF := 0] == m.registers[0xF := 0];
    assert PenOf(m1, xReg, yReg) == pen;
    forall i | 0 <= i < XO_SCREEN_SIZE
      ensures m2.plane1[i] == m.plane1[i] && m2.plane2[i] == m.plane2[i]
    {
      WideParity(pen, Canvas(m.plane1, m.plane2, false), 0, i);
      WideParity(pen, Canvas(m1.plane1, m1.plane2, false), 0, i);
    }
  }

  /** The canvas a context holds while a draw is under way (VF is 0 or 1 throughout). */
  ghost function CanvasNow(ctx: VmContext): Canvas
    reads ctx, ctx.plane1, ctx.plane2, ctx.registers
    requires ctx.Valid()
  {
    Canvas(ctx.plane1[..], ctx.plane2[..], ctx.registers[0xF] == 1)
  }

  /** The pen a context describes for sprite origin (x, y). */
  ghost function PenNow(ctx: VmContext, x: nat, y: nat): (pen: Pen)
    reads ctx, ctx.memory
    requires ctx.Valid()
    ensures PenOk(pen)
  {
    Pen(ctx.memory[..], ctx.index, x, y, ctx.currentWidth, ctx.currentHeight, ctx.planeMask)
  }

  /** VF only ever holds 0 or 1 during a draw, and no other register changes. */
  ghost predicate OnlyFlag(ctx: VmContext, regs: seq<Byte>)
    reads ctx, ctx.registers
    requires ctx.Valid() && |regs| == REGISTER_COUNT
  {
    ctx.registers[..] == regs[0xF := ctx.registers[0xF]] && ctx.registers[0xF] <= 1
  }

  /** One toggle of cell idx in the selected planes, raising VF when a set cell is cleared. */
  method ToggleCell(ctx: VmContext, idx: nat, t1: bool, t2: bool, ghost regs: seq<Byte>)
    requires ctx.Valid() && idx < XO_SCREEN_SIZE && |regs| == REGISTER_COUNT && OnlyFlag(ctx, regs)
    modifies ctx.registers, ctx.plane1, ctx.plane2
    ensures OnlyFlag(ctx, regs)
    ensures CanvasNow(ctx) == Plot(old(CanvasNow(ctx)), idx, t1, t2)
  {
    if t1 {
      var previous := ctx.plane1[idx];
      ctx.plane1[idx] := !ctx.plane1[idx];
      if previous && !ctx.plane1[idx] {
        ctx.registers[0xF] := 1;
      }
    }
    if t2 {
      var previous := ctx.plane2[idx];
      ctx.plane2[idx] := !ctx.plane2[idx];
      if previous && !ctx.plane2[idx] {
        ctx.registers[0xF] := 1;
      }
    }
  }

  /** The column loop of `draw_sprite` for one row. */
  method DrawSpriteRow(ctx: VmContext, xCoord: nat, yCoord: nat, row: nat, pixels: Byte, ghost regs: seq<Byte>)
    requires ctx.Valid() && |regs| == REGISTER_COUNT && OnlyFlag(ctx, regs)
    modifies ctx.registers, ctx.plane1, ctx.plane2
    ensures OnlyFlag(ctx, regs)
    ensures CanvasNow(ctx) == SpriteRowFrom(PenNow(ctx, xCoord, yCoord), row, pixels, old(CanvasNow(ctx)), 0)
  {
    ghost var pen := PenNow(ctx, xCoord, yCoord);
    ghost var start := CanvasNow(ctx);
    for col := 0 to 8
      invariant OnlyFlag(ctx, regs) && PenNow(ctx, xCoord, yCoord) == pen
      invariant SpriteRowFrom(pen, row, pixels, CanvasNow(ctx), col) == SpriteRowFrom(pen, row, pixels, start, 0)
    {
      if MsbBit(pixels, col) {
        var px := (xCoord + col) % ctx.currentWidth;
        var py := (yCoord + row) % ctx.currentHeight;
        var idx := px + py * XO_RES_WIDTH;
        assert idx == Cell(pen, col, row);
        if idx < XO_SCREEN_SIZE {
          ToggleCell(ctx, idx, SelectsPlane1(ctx.planeMask), SelectsPlane2(ctx.planeMask), regs);
        }
      }
    }
  }

  /** The row loop of `draw_sprite`: rows are drawn until the sprite ends or a row's
      address falls outside memory. */
  method DrawSpriteRows(ctx: VmContext, xCoord: nat, yCoord: nat, k: nat, ghost regs: seq<Byte>) returns (halt: Halt)
    requires ctx.Valid() && |regs| == REGISTER_COUNT && OnlyFlag(ctx, regs)
    modifies ctx.registers, ctx.plane1, ctx.plane2
    ensures OnlyFlag(ctx, regs)
    ensures Drawn(CanvasNow(ctx), halt) == SpriteFrom(PenNow(ctx, xCoord, yCoord), k, old(CanvasNow(ctx)), 0)
  {
    ghost var pen := PenNow(ctx, xCoord, yCoord);
    ghost var whole := SpriteFrom(pen, k, CanvasNow(ctx), 0);
    for row := 0 to k
      invariant OnlyFlag(ctx, regs) && PenNow(ctx, xCoord, yCoord) == pen
      invariant SpriteFrom(pen, k, CanvasNow(ctx), row) == whole
    {
      var addr := ctx.index + row;
      if addr >= RAM_SIZE {
        return OutOfBounds(SPRITE_OOB);
      }
      DrawSpriteRow(ctx, xCoord, yCoord, row, ctx.memory[addr], regs);
    }
    return Done;
  }

  /** src/xo.rs `draw_sprite` (DXYK): VF is cleared, then the sprite is drawn from the
      coordinates in Vx and Vy. */
  method DrawSprite(ctx: VmContext, xReg: nat, yReg: nat, k: nat) returns (halt: Halt)
    requires ctx.Valid() && xReg < REGISTER_COUNT && yReg < REGISTER_COUNT
    modifies ctx.registers, ctx.plane1, ctx.plane2
    ensures var d := SpriteDrawn(old(ctx.Snap()), xReg, yReg, k);
      halt == d.halt && ctx.Snap() == AfterDraw(old(ctx.Snap()), d)
  {
    ghost var m := ctx.Snap();
    ctx.registers[0xF] := 0;
    var xCoord: nat := ctx.registers[xReg];
    var yCoord: nat := ctx.registers[yReg];
    ghost var regs := ctx.registers[..];
    assert PenNow(ctx, xCoord, yCoord) == PenOf(m, xReg, yReg);
    assert CanvasNow(ctx) == Canvas(m.plane1, m.plane2, false);
    halt := DrawSpriteRows(ctx, xCoord, yCoord, k, regs);
    ghost var d := SpriteDrawn(m, xReg, yReg, k);
    assert ctx.registers[..] == m.registers[0xF := if d.cv.collided then 1 else 0];
  }

  /** The column loop of `draw_16x16_sprite` for one row, which stops where the plane-2
      bitmap runs past the end of memory. */
  method DrawWideRow(ctx: VmContext, xCoord: nat, yCoord: nat, row: nat, ghost regs: seq<Byte>) returns (halt: Halt)
    requires ctx.Valid() && |regs| == REGISTER_COUNT && OnlyFlag(ctx, regs)
    requires ctx.index + row * 2 + 1 < RAM_SIZE
    modifies ctx.registers, ctx.plane1, ctx.plane2
    ensures OnlyFlag(ctx, regs)
    ensures Drawn(CanvasNow(ctx), halt) == WideRowFrom(PenNow(ctx, xCoord, yCoord), row, old(CanvasNow(ctx)), 0)
  {
    ghost var pen := PenNow(ctx, xCoord, yCoord);
    ghost var whole := WideRowFrom(pen, row, CanvasNow(ctx), 0);
    var baseAddr := ctx.index + row * 2;
    var pixelsHi := ctx.memory[baseAddr];
    var pixelsLo := ctx.memory[baseAddr + 1];
    var useBothPlanes := ctx.planeMask == 3;
    for col := 0 to 16
      invariant OnlyFlag(ctx, regs) && PenNow(ctx, xCoord, yCoord) == pen
      invariant WideRowFrom(pen, row, CanvasNow(ctx), col) == whole
    {
      var pixelBit := if col < 8 then MsbBit(pixelsHi, col) else MsbBit(pixelsLo, col - 8);
      assert pixelBit == WideBit(pen, row, col);
      if pixelBit {
        var px := (xCoord + col) % ctx.currentWidth;
        var py := (yCoord + row) % ctx.currentHeight;
        var idx := px + py * XO_RES_WIDTH;
        assert idx == Cell(pen, col, row);
        if idx < XO_SCREEN_SIZE {
          if SelectsPlane1(ctx.planeMask) {
            ToggleCell(ctx, idx, true, false, regs);
          }
          if SelectsPlane2(ctx.planeMask) {
            var pixelBit2 := pixelBit;
            if useBothPlanes {
              var plane2Addr := ctx.index + 16 * 2 + row * 2;
              if plane2Addr + 1 >= RAM_SIZE {
                return OutOfBounds(PLANE2_OOB);
              }
              var pixelsHi2 := ctx.memory[plane2Addr];
              var pixelsLo2 := ctx.memory[plane2Addr + 1];
              pixelBit2 := if col < 8 then MsbBit(pixelsHi2, col) else MsbBit(pixelsLo2, col - 8);
            }
            assert pixelBit2 == Plane2Bit(pen, row, col);
            ToggleCell(ctx, idx, false, pixelBit2, regs);
          }
        }
      }
    }
    return Done;
  }

  /** The row loop of `draw_16x16_sprite`. */
  method DrawWideRows(ctx: VmContext, xCoord: nat, yCoord: nat, ghost regs: seq<Byte>) returns (halt: Halt)
    requires ctx.Valid() && |regs| == REGISTER_COUNT && OnlyFlag(ctx, regs)
    modifies ctx.registers, ctx.plane1, ctx.plane2
    ensures OnlyFlag(ctx, regs)
    ensures Drawn(CanvasNow(ctx), halt) == WideFrom(PenNow(ctx, xCoord, yCoord), old(CanvasNow(ctx)), 0)
  {
    ghost var pen := PenNow(ctx, xCoord, yCoord);
    ghost var whole := WideFrom(pen, CanvasNow(ctx), 0);
    for row := 0 to 16
      invariant OnlyFlag(ctx, regs) && PenNow(ctx, xCoord, yCoord) == pen
      invariant WideFrom(pen, CanvasNow(ctx), row) == whole
    {
      var baseAddr := ctx.index + row * 2;
      if baseAddr + 1 >= RAM_SIZE {
        return OutOfBounds(WIDE_OOB);
      }
      halt := DrawWideRow(ctx, xCoord, yCoord, row, regs);
      if halt.OutOfBounds? {
        return;
      }
    }
    return Done;
  }

  /** src/xo.rs `draw_16x16_sprite` (DXY0). */
  method DrawWideSprite(ctx: VmContext, xReg: nat, yReg: nat) returns (halt: Halt)
    requires ctx.Valid() && xReg < REGISTER_COUNT && yReg < REGISTER_COUNT
    modifies ctx.registers, ctx.plane1, ctx.plane2
    ensures var d := WideDrawn(old(ctx.Snap()), xReg, yReg);
      halt == d.halt && ctx.Snap() == AfterDraw(old(ctx.Snap()), d)
  {
    ghost var m := ctx.Snap();
    ctx.registers[0xF] := 0;
    var xCoord: nat := ctx.registers[xReg];
    var yCoord: nat := ctx.registers[yReg];
    ghost var regs := ctx.registers[..];
    assert PenNow(ctx, xCoord, yCoord) == PenOf(m, xReg, yReg);
    assert CanvasNow(ctx) == Canvas(m.plane1, m.plane2, false);
    halt := DrawWideRows(ctx, xCoord, yCoord, regs);
    ghost var d := WideDrawn(m, xReg, yReg);
    assert ctx.registers[..] == m.registers[0xF := if d.cv.collided then 1 else 0];
  }
}
