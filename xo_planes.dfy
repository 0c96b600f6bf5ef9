/** The XO-CHIP bit-planes of src/xo.rs: plane selection, resolution switches and scrolls.

    The two bit-planes are flat buffers of XO_SCREEN_SIZE cells. The scrolls address them with
    the current viewport width as the row stride (cell (c, r) is index c + r * width); the
    draws in XoDraw use the fixed stride XO_RES_WIDTH instead. Each scroll is specified by a
    function giving the new value of every cell of a plane, and the methods follow the
    source's row and column loops, one row at a time. */
module XoPlanes {
  import opened Conf
  import opened Extensions

  /** `plane_mask & 0x1 != 0` */
  predicate SelectsPlane1(mask: Byte)
  {
    mask % 2 == 1
  }

  /** `plane_mask & 0x2 != 0` */
  predicate SelectsPlane2(mask: Byte)
  {
    (mask / 2) % 2 == 1
  }

  function Falses(n: nat): (r: seq<bool>)
    ensures |r| == n && forall i :: 0 <= i < n ==> !r[i]
  {
    seq(n, _ => false)
  }

  // ---------------------------------------------------------------- grid arithmetic

  /** Cell (c, r) of a stride-w grid sits at c + r * w, and the rows are laid end to end. */
  lemma GridCell(w: nat, h: nat, c: nat, r: nat)
    requires Viewport(w, h) && c < w && r < h
    ensures r * w <= c + r * w < r * w + w <= h * w <= XO_SCREEN_SIZE
    ensures (c + r * w) / w == r && (c + r * w) % w == c
  {
    if w == SCREEN_WIDTH {
      assert r * w == r * 64;
    } else {
      assert r * w == r * 128;
    }
  }

  /** Every index inside the viewport is the cell of exactly one (column, row) pair. */
  lemma Decompose(w: nat, h: nat, i: nat)
    requires Viewport(w, h) && i < h * w
    ensures i / w < h && i % w < w && i == i % w + (i / w) * w
    ensures (i / w) * w + w <= h * w <= XO_SCREEN_SIZE
  {
    if w == SCREEN_WIDTH {
      assert (i / w) * w == (i / 64) * 64;
    } else {
      assert (i / w) * w == (i / 128) * 128;
    }
  }

  /** The index of a cell of row r, less r * w, is its column. */
  lemma InRow(w: nat, h: nat, r: nat, i: nat)
    requires Viewport(w, h) && r < h && r * w <= i < r * w + w
    ensures i % w == i - r * w && i / w == r && i < h * w
  {
    GridCell(w, h, i - r * w, r);
  }

  /** The product rules the row loops rely on, for either viewport. */
  lemma RowStep(w: nat, h: nat, r: nat, n: nat)
    requires Viewport(w, h)
    ensures (r + 1) * w == r * w + w
    ensures n <= r ==> (r - n) * w == r * w - n * w && n * w <= r * w
    ensures r <= h ==> r * w <= h * w <= XO_SCREEN_SIZE
    ensures n == 0 ==> n * w == 0
    ensures n >= 1 ==> n * w >= w
  {
    if w == SCREEN_WIDTH {
      assert r * w == r * 64 && n * w == n * 64 && h * w == 2048;
    } else {
      assert r * w == r * 128 && n * w == n * 128 && h * w == 8192;
    }
  }

  // ---------------------------------------------------------------- specification

  /** One cell of a plane after `scroll_down` by n < h lines with stride w: rows n.. hold
      the old rows 0.., rows 0..n are clear, cells past the viewport keep their value. */
  function ScrollDownCell(p: seq<bool>, w: nat, h: nat, n: nat, i: nat): bool
    requires |p| == XO_SCREEN_SIZE && Viewport(w, h) && i < |p|
  {
    if i < h * w then (if i >= n * w then p[i - n * w] else false) else p[i]
  }

  function ScrollDownPlane(p: seq<bool>, w: nat, h: nat, n: nat): (r: seq<bool>)
    requires |p| == XO_SCREEN_SIZE && Viewport(w, h)
    ensures |r| == |p|
  {
    seq(|p|, i requires 0 <= i < |p| => ScrollDownCell(p, w, h, n, i))
  }

  /** One cell after `scroll_right`: within each viewport row, column c >= 4 takes the old
      column c - 4 and columns 0..4 are clear. */
  function ScrollRightCell(p: seq<bool>, w: nat, h: nat, i: nat): bool
    requires |p| == XO_SCREEN_SIZE && Viewport(w, h) && i < |p|
  {
    if i < h * w then
      Decompose(w, h, i);
      if i % w >= 4 then p[i - 4] else false
    else p[i]
  }

  function ScrollRightPlane(p: seq<bool>, w: nat, h: nat): (r: seq<bool>)
    requires |p| == XO_SCREEN_SIZE && Viewport(w, h)
    ensures |r| == |p|
  {
    seq(|p|, i requires 0 <= i < |p| => ScrollRightCell(p, w, h, i))
  }

  /** `w.saturating_sub(s)`: the number of columns that receive a shifted value. */
  function Kept(w: nat, s: nat): nat
  {
    if w >= s then w - s else 0
  }

  /** One cell after a left scroll by s: within each viewport row, column c < w - s takes
      the old column c + s and the last s columns are clear. */
  function ScrollLeftCell(p: seq<bool>, w: nat, h: nat, s: nat, i: nat): bool
    requires |p| == XO_SCREEN_SIZE && Viewport(w, h) && i < |p|
  {
    if i < h * w then
      Decompose(w, h, i);
      if i % w < Kept(w, s) then p[i + s] else false
    else p[i]
  }

  function ScrollLeftPlane(p: seq<bool>, w: nat, h: nat, s: nat): (r: seq<bool>)
    requires |p| == XO_SCREEN_SIZE && Viewport(w, h)
    ensures |r| == |p|
  {
    seq(|p|, i requires 0 <= i < |p| => ScrollLeftCell(p, w, h, s, i))
  }

  /** The selected planes replaced by q1 and q2. */
  function WithSelected(m: Machine, q1: seq<bool>, q2: seq<bool>): Machine
    requires |q1| == XO_SCREEN_SIZE && |q2| == XO_SCREEN_SIZE
  {
    m.(plane1 := if SelectsPlane1(m.planeMask) then q1 else m.plane1,
       plane2 := if SelectsPlane2(m.planeMask) then q2 else m.plane2)
  }

  /** Effect of `scroll_down(n)` on a machine: the selected planes scroll; if n reaches the
      viewport height, the selected planes and the screen are cleared instead. */
  function ScrolledDown(m: Machine, n: nat): Machine
  {
    if n >= m.height then
      WithSelected(m, Falses(XO_SCREEN_SIZE), Falses(XO_SCREEN_SIZE)).(screen := Falses(HI_RES_SIZE))
    else
      WithSelected(m, ScrollDownPlane(m.plane1, m.width, m.height, n),
                      ScrollDownPlane(m.plane2, m.width, m.height, n))
  }

  /** Effect of `scroll_right` on a machine. */
  function ScrolledRight(m: Machine): Machine
  {
    WithSelected(m, ScrollRightPlane(m.plane1, m.width, m.height),
                    ScrollRightPlane(m.plane2, m.width, m.height))
  }

  /** Effect of a left scroll by s on a machine (`scroll_left` is s = 4). */
  function ScrolledLeft(m: Machine, s: nat): Machine
  {
    WithSelected(m, ScrollLeftPlane(m.plane1, m.width, m.height, s),
                    ScrollLeftPlane(m.plane2, m.width, m.height, s))
  }

  /** Effect of `set_low_resolution` / `set_high_resolution`: the new viewport, and the
      selected planes cleared. */
  function Resized(m: Machine, w: nat, h: nat): Machine
    requires Viewport(w, h)
  {
    WithSelected(m, Falses(XO_SCREEN_SIZE), Falses(XO_SCREEN_SIZE)).(width := w, height := h)
  }

  // ---------------------------------------------------------------- properties

  /** `scroll_down` in cell coordinates: cell (c, r) of the viewport takes the old value
      of cell (c, r - n), or becomes clear when r < n. */
  lemma ScrollDownMovesRows(p: seq<bool>, w: nat, h: nat, n: nat, c: nat, r: nat)
    requires |p| == XO_SCREEN_SIZE && Viewport(w, h) && c < w && r < h
    ensures c + r * w < |p| && (r >= n ==> c + (r - n) * w < |p|)
    ensures ScrollDownPlane(p, w, h, n)[c + r * w] == if r >= n then p[c + (r - n) * w] else false
  {
    GridCell(w, h, c, r);
    RowStep(w, h, r, n);
    if r < n {
      assert (r + 1) * w <= n * w by {
        if w == SCREEN_WIDTH {
          assert (r + 1) * w == (r + 1) * 64 && n * w == n * 64;
        } else {
          assert (r + 1) * w == (r + 1) * 128 && n * w == n * 128;
        }
      }
    }
  }

  /** The row shift of one plane composes: by a, then by b, is one shift by a + b. (On the
      machine a scroll by N >= height also clears the base screen, which this does not cover.) */
  lemma ScrollDownTwice(p: seq<bool>, w: nat, h: nat, a: nat, b: nat)
    requires |p| == XO_SCREEN_SIZE && Viewport(w, h)
    ensures ScrollDownPlane(ScrollDownPlane(p, w, h, a), w, h, b) == ScrollDownPlane(p, w, h, a + b)
  {
    var q := ScrollDownPlane(p, w, h, a);
    assert (a + b) * w == a * w + b * w by {
      if w == SCREEN_WIDTH {
        assert (a + b) * w == (a + b) * 64 && a * w == a * 64 && b * w == b * 64;
      } else {
        assert (a + b) * w == (a + b) * 128 && a * w == a * 128 && b * w == b * 128;
      }
    }
    forall i | 0 <= i < XO_SCREEN_SIZE
      ensures ScrollDownPlane(q, w, h, b)[i] == ScrollDownPlane(p, w, h, a + b)[i]
    {
      if i < h * w && i >= b * w {
        assert ScrollDownPlane(q, w, h, b)[i] == q[i - b * w];
      }
    }
  }

  /** `scroll_right` in cell coordinates. */
  lemma ScrollRightMovesCols(p: seq<bool>, w: nat, h: nat, c: nat, r: nat)
    requires |p| == XO_SCREEN_SIZE && Viewport(w, h) && c < w && r < h
    ensures c + r * w < |p|
    ensures ScrollRightPlane(p, w, h)[c + r * w] == if c >= 4 then p[(c - 4) + r * w] else false
  {
    GridCell(w, h, c, r);
  }

  /** A left scroll by s in cell coordinates. */
  lemma ScrollLeftMovesCols(p: seq<bool>, w: nat, h: nat, s: nat, c: nat, r: nat)
    requires |p| == XO_SCREEN_SIZE && Viewport(w, h) && c < w && r < h
    ensures c + r * w < |p| && (c + s < w ==> (c + s) + r * w < |p|)
    ensures ScrollLeftPlane(p, w, h, s)[c + r * w] == if c + s < w then p[(c + s) + r * w] else false
  {
    GridCell(w, h, c, r);
  }

  /** Scrolling right and then left by 4 gives back every column except the last four. */
  lemma ScrollRightThenLeft(p: seq<bool>, w: nat, h: nat, c: nat, r: nat)
    requires |p| == XO_SCREEN_SIZE && Viewport(w, h) && c + 4 < w && r < h
    ensures c + r * w < |p|
    ensures ScrollLeftPlane(ScrollRightPlane(p, w, h), w, h, 4)[c + r * w] == p[c + r * w]
  {
    ScrollLeftMovesCols(ScrollRightPlane(p, w, h), w, h, 4, c, r);
    ScrollRightMovesCols(p, w, h, c + 4, r);
  }

  /** A left scroll by 0 changes nothing (which is why `scroll_left_n(0)` may return early). */
  lemma ScrollLeftZero(m: Machine)
    ensures ScrolledLeft(m, 0) == m
  {
    forall p: seq<bool>, i | |p| == XO_SCREEN_SIZE && 0 <= i < XO_SCREEN_SIZE
      ensures ScrollLeftPlane(p, m.width, m.height, 0)[i] == p[i]
    {
      if i < m.height * m.width {
        Decompose(m.width, m.height, i);
      }
    }
    assert ScrollLeftPlane(m.plane1, m.width, m.height, 0) == m.plane1;
    assert ScrollLeftPlane(m.plane2, m.width, m.height, 0) == m.plane2;
  }

  /** `scroll_down` with n = 0 changes nothing. */
  lemma ScrollDownZero(m: Machine)
    ensures ScrolledDown(m, 0) == m
  {
    assert ScrollDownPlane(m.plane1, m.width, m.height, 0) == m.plane1;
    assert ScrollDownPlane(m.plane2, m.width, m.height, 0) == m.plane2;
  }

  /** Switching to the resolution already selected again only clears the planes again. */
  lemma ResizedIdempotent(m: Machine, w: nat, h: nat)
    requires Viewport(w, h)
    ensures Resized(Resized(m, w, h), w, h) == Resized(m, w, h)
    ensures Resized(m, w, h).screen == m.screen && Resized(m, w, h).keys == m.keys
  {
  }

  // ---------------------------------------------------------------- the source's loops

  /** Clears the planes that `planeMask` selects (`fill(false)`). */
  method ClearSelected(ctx: VmContext)
    requires ctx.Valid()
    modifies ctx.plane1, ctx.plane2
    ensures ctx.plane1[..] == if SelectsPlane1(ctx.planeMask) then Falses(XO_SCREEN_SIZE) else old(ctx.plane1[..])
    ensures ctx.plane2[..] == if SelectsPlane2(ctx.planeMask) then Falses(XO_SCREEN_SIZE) else old(ctx.plane2[..])
  {
    if SelectsPlane1(ctx.planeMask) {
      forall i | 0 <= i < ctx.plane1.Length {
        ctx.plane1[i] := false;
      }
    }
    if SelectsPlane2(ctx.planeMask) {
      forall i | 0 <= i < ctx.plane2.Length {
        ctx.plane2[i] := false;
      }
    }
  }

  /** src/xo.rs `set_low_resolution` (00FE) */
  method SetLowResolution(ctx: VmContext)
    requires ctx.Valid()
    modifies ctx, ctx.plane1, ctx.plane2
    ensures ctx.Valid() && ctx.Snap() == Resized(old(ctx.Snap()), SCREEN_WIDTH, SCREEN_HEIGHT)
  {
    ctx.currentWidth := SCREEN_WIDTH;
    ctx.currentHeight := SCREEN_HEIGHT;
    ClearSelected(ctx);
  }

  /** src/xo.rs `set_high_resolution` (00FF) */
  method SetHighResolution(ctx: VmContext)
    requires ctx.Valid()
    modifies ctx, ctx.plane1, ctx.plane2
    ensures ctx.Valid() && ctx.Snap() == Resized(old(ctx.Snap()), HI_RES_WIDTH, HI_RES_HEIGHT)
  {
    ctx.currentWidth := HI_RES_WIDTH;
    ctx.currentHeight := HI_RES_HEIGHT;
    ClearSelected(ctx);
  }

  /** One pass of the first row loop of `scroll_down`: row `row` of each selected plane takes
      row `row - n`, which the descending row order has not overwritten yet. */
  method CopyRowDown(ctx: VmContext, row: nat, n: nat, ghost base: nat, ghost nw: nat)
    requires ctx.Valid() && n <= row < ctx.currentHeight
    requires base == row * ctx.currentWidth && nw == n * ctx.currentWidth && nw <= base
    modifies ctx.plane1, ctx.plane2
    ensures forall i :: 0 <= i < XO_SCREEN_SIZE ==>
      ctx.plane1[i] == if SelectsPlane1(ctx.planeMask) && base <= i < base + ctx.currentWidth then old(ctx.plane1[i - nw]) else old(ctx.plane1[i])
    ensures forall i :: 0 <= i < XO_SCREEN_SIZE ==>
      ctx.plane2[i] == if SelectsPlane2(ctx.planeMask) && base <= i < base + ctx.currentWidth then old(ctx.plane2[i - nw]) else old(ctx.plane2[i])
  {
    var screenWidth := ctx.currentWidth;
    RowStep(screenWidth, ctx.currentHeight, row, n);
    RowStep(screenWidth, ctx.currentHeight, row + 1, n);
    for col := 0 to screenWidth
      invariant forall i :: 0 <= i < XO_SCREEN_SIZE ==>
        ctx.plane1[i] == if SelectsPlane1(ctx.planeMask) && base <= i < base + col then old(ctx.plane1[i - nw]) else old(ctx.plane1[i])
      invariant forall i :: 0 <= i < XO_SCREEN_SIZE ==>
        ctx.plane2[i] == if SelectsPlane2(ctx.planeMask) && base <= i < base + col then old(ctx.plane2[i - nw]) else old(ctx.plane2[i])
    {
      var srcIdx := col + (row - n) * screenWidth;
      var dstIdx := col + row * screenWidth;
      if srcIdx < XO_SCREEN_SIZE && dstIdx < XO_SCREEN_SIZE {
        if SelectsPlane1(ctx.planeMask) {
          ctx.plane1[dstIdx] := ctx.plane1[srcIdx];
        }
        if SelectsPlane2(ctx.planeMask) {
          ctx.plane2[dstIdx] := ctx.plane2[srcIdx];
        }
      }
    }
  }

  /** One pass of the second row loop of `scroll_down`: row `row` of each selected plane
      is cleared. */
  method ClearRow(ctx: VmContext, row: nat, from: nat, ghost base: nat)
    requires ctx.Valid() && row < ctx.currentHeight && base == row * ctx.currentWidth
    requires from <= ctx.currentWidth
    modifies ctx.plane1, ctx.plane2
    ensures forall i :: 0 <= i < XO_SCREEN_SIZE ==>
      ctx.plane1[i] == if SelectsPlane1(ctx.planeMask) && base + from <= i < base + ctx.currentWidth then false else old(ctx.plane1[i])
    ensures forall i :: 0 <= i < XO_SCREEN_SIZE ==>
      ctx.plane2[i] == if SelectsPlane2(ctx.planeMask) && base + from <= i < base + ctx.currentWidth then false else old(ctx.plane2[i])
  {
    var screenWidth := ctx.currentWidth;
    RowStep(screenWidth, ctx.currentHeight, row + 1, 0);
    for col := from to screenWidth
      invariant forall i :: 0 <= i < XO_SCREEN_SIZE ==>
        ctx.plane1[i] == if SelectsPlane1(ctx.planeMask) && base + from <= i < base + col then false else old(ctx.plane1[i])
      invariant forall i :: 0 <= i < XO_SCREEN_SIZE ==>
        ctx.plane2[i] == if SelectsPlane2(ctx.planeMask) && base + from <= i < base + col then false else old(ctx.plane2[i])
    {
      var idx := col + row * screenWidth;
      if idx < XO_SCREEN_SIZE {
        if SelectsPlane1(ctx.planeMask) {
          ctx.plane1[idx] := false;
        }
        if SelectsPlane2(ctx.planeMask) {
          ctx.plane2[idx] := false;
        }
      }
    }
  }

  /** The first row loop of `scroll_down`, rows h-1 down to n: afterwards rows n.. of each
      selected plane hold the old rows 0.. (n * w is `nw`). */
  method CopyRowsDown(ctx: VmContext, n: nat, ghost nw: nat)
    requires ctx.Valid() && n < ctx.currentHeight && nw == n * ctx.currentWidth
    modifies ctx.plane1, ctx.plane2
    ensures ctx.currentHeight * ctx.currentWidth <= XO_SCREEN_SIZE
    ensures forall i :: 0 <= i < XO_SCREEN_SIZE ==>
      ctx.plane1[i] == if SelectsPlane1(ctx.planeMask) && nw <= i < ctx.currentHeight * ctx.currentWidth
        then old(ctx.plane1[i - nw]) else old(ctx.plane1[i])
    ensures forall i :: 0 <= i < XO_SCREEN_SIZE ==>
      ctx.plane2[i] == if SelectsPlane2(ctx.planeMask) && nw <= i < ctx.currentHeight * ctx.currentWidth
        then old(ctx.plane2[i - nw]) else old(ctx.plane2[i])
  {
    var screenWidth := ctx.currentWidth;
    var screenHeight := ctx.currentHeight;
    ghost var hw := screenHeight * screenWidth;
    RowStep(screenWidth, screenHeight, screenHeight, n);
    ghost var base := hw;
    for row := screenHeight downto n
      invariant base == row * screenWidth && nw <= base <= hw
      invariant forall i :: 0 <= i < XO_SCREEN_SIZE ==>
        ctx.plane1[i] == if SelectsPlane1(ctx.planeMask) && base <= i < hw then old(ctx.plane1[i - nw]) else old(ctx.plane1[i])
      invariant forall i :: 0 <= i < XO_SCREEN_SIZE ==>
        ctx.plane2[i] == if SelectsPlane2(ctx.planeMask) && base <= i < hw then old(ctx.plane2[i - nw]) else old(ctx.plane2[i])
    {
      RowStep(screenWidth, screenHeight, row, n);
      base := base - screenWidth;
      CopyRowDown(ctx, row, n, base, nw);
    }
  }

  /** The second row loop of `scroll_down`, rows 0..n: afterwards the first n rows of each
      selected plane are clear. */
  method ClearRowsAbove(ctx: VmContext, n: nat, ghost nw: nat)
    requires ctx.Valid() && n < ctx.currentHeight && nw == n * ctx.currentWidth
    modifies ctx.plane1, ctx.plane2
    ensures forall i :: 0 <= i < XO_SCREEN_SIZE ==>
      ctx.plane1[i] == if SelectsPlane1(ctx.planeMask) && i < nw then false else old(ctx.plane1[i])
    ensures forall i :: 0 <= i < XO_SCREEN_SIZE ==>
      ctx.plane2[i] == if SelectsPlane2(ctx.planeMask) && i < nw then false else old(ctx.plane2[i])
  {
    var screenWidth := ctx.currentWidth;
    var screenHeight := ctx.currentHeight;
    ghost var base := 0;
    for row := 0 to n
      invariant base == row * screenWidth && base <= nw
      invariant forall i :: 0 <= i < XO_SCREEN_SIZE ==>
        ctx.plane1[i] == if SelectsPlane1(ctx.planeMask) && i < base then false else old(ctx.plane1[i])
      invariant forall i :: 0 <= i < XO_SCREEN_SIZE ==>
        ctx.plane2[i] == if SelectsPlane2(ctx.planeMask) && i < base then false else old(ctx.plane2[i])
    {
      RowStep(screenWidth, screenHeight, row, 0);
      RowStep(screenWidth, screenHeight, n, row + 1);
      ClearRow(ctx, row, 0, base);
      base := base + screenWidth;
    }
  }

  /** src/xo.rs `scroll_down` (00CN) */
  method ScrollDown(ctx: VmContext, n: Byte)
    requires ctx.Valid()
    modifies ctx.plane1, ctx.plane2, ctx.screen
    ensures ctx.Snap() == ScrolledDown(old(ctx.Snap()), n)
  {
    var scrollLines: nat := n;
    if scrollLines >= ctx.currentHeight {
      ClearSelected(ctx);
      forall i | 0 <= i < ctx.screen.Length {
        ctx.screen[i] := false;
      }
      return;
    }
    ghost var w, h := ctx.currentWidth, ctx.currentHeight;
    ghost var sel1, sel2 := SelectsPlane1(ctx.planeMask), SelectsPlane2(ctx.planeMask);
    ghost var p1, p2 := ctx.plane1[..], ctx.plane2[..];
    ghost var nw := scrollLines * w;
    RowStep(w, h, h, scrollLines);
    CopyRowsDown(ctx, scrollLines, nw);
    ghost var q1, q2 := ctx.plane1[..], ctx.plane2[..];
    ClearRowsAbove(ctx, scrollLines, nw);
    forall i | 0 <= i < XO_SCREEN_SIZE
      ensures ctx.plane1[i] == if sel1 then ScrollDownCell(p1, w, h, scrollLines, i) else p1[i]
      ensures ctx.plane2[i] == if sel2 then ScrollDownCell(p2, w, h, scrollLines, i) else p2[i]
    {
      assert q1[i] == if sel1 && nw <= i < h * w then p1[i - nw] else p1[i];
      assert q2[i] == if sel2 && nw <= i < h * w then p2[i - nw] else p2[i];
    }
    assert ctx.plane1[..] == if sel1 then ScrollDownPlane(p1, w, h, scrollLines) else p1;
    assert ctx.plane2[..] == if sel2 then ScrollDownPlane(p2, w, h, scrollLines) else p2;
  }

  /** One row of `scroll_right`: columns 4.. of the selected planes take the columns four to
      their left, copied right to left, and columns 0..4 are cleared. */
  method ShiftRowRight(ctx: VmContext, row: nat, ghost base: nat)
    requires ctx.Valid() && row < ctx.currentHeight && base == row * ctx.currentWidth
    modifies ctx.plane1, ctx.plane2
    ensures forall i :: 0 <= i < XO_SCREEN_SIZE ==>
      ctx.plane1[i] == if SelectsPlane1(ctx.planeMask) && base <= i < base + ctx.currentWidth
        then (if i - base >= 4 then old(ctx.plane1[i - 4]) else false) else old(ctx.plane1[i])
    ensures forall i :: 0 <= i < XO_SCREEN_SIZE ==>
      ctx.plane2[i] == if SelectsPlane2(ctx.planeMask) && base <= i < base + ctx.currentWidth
        then (if i - base >= 4 then old(ctx.plane2[i - 4]) else false) else old(ctx.plane2[i])
  {
    var screenWidth := ctx.currentWidth;
    RowStep(screenWidth, ctx.currentHeight, row + 1, 0);
    for col := screenWidth downto 4
      invariant forall i :: 0 <= i < XO_SCREEN_SIZE ==>
        ctx.plane1[i] == if SelectsPlane1(ctx.planeMask) && base + col <= i < base + screenWidth then old(ctx.plane1[i - 4]) else old(ctx.plane1[i])
      invariant forall i :: 0 <= i < XO_SCREEN_SIZE ==>
        ctx.plane2[i] == if SelectsPlane2(ctx.planeMask) && base + col <= i < base + screenWidth then old(ctx.plane2[i - 4]) else old(ctx.plane2[i])
    {
      var srcIdx := (col - 4) + row * screenWidth;
      var dstIdx := col + row * screenWidth;
      if srcIdx < XO_SCREEN_SIZE && dstIdx < XO_SCREEN_SIZE {
        if SelectsPlane1(ctx.planeMask) {
          ctx.plane1[dstIdx] := ctx.plane1[srcIdx];
        }
        if SelectsPlane2(ctx.planeMask) {
          ctx.plane2[dstIdx] := ctx.plane2[srcIdx];
        }
      }
    }
    for col := 0 to 4
      invariant forall i :: 0 <= i < XO_SCREEN_SIZE ==>
        ctx.plane1[i] == if SelectsPlane1(ctx.planeMask) && base <= i < base + col then false
          else if SelectsPlane1(ctx.planeMask) && base + 4 <= i < base + screenWidth then old(ctx.plane1[i - 4])
          else old(ctx.plane1[i])
      invariant forall i :: 0 <= i < XO_SCREEN_SIZE ==>
        ctx.plane2[i] == if SelectsPlane2(ctx.planeMask) && base <= i < base + col then false
          else if SelectsPlane2(ctx.planeMask) && base + 4 <= i < base + screenWidth then old(ctx.plane2[i - 4])
          else old(ctx.plane2[i])
    {
      var idx := col + row * screenWidth;
      if idx < XO_SCREEN_SIZE {
        if SelectsPlane1(ctx.planeMask) {
          ctx.plane1[idx] := false;
        }
        if SelectsPlane2(ctx.planeMask) {
          ctx.plane2[idx] := false;
        }
      }
    }
  }

  /** src/xo.rs `scroll_right` (00FB) */
  method ScrollRight(ctx: VmContext)
    requires ctx.Valid()
    modifies ctx.plane1, ctx.plane2
    ensures ctx.Snap() == ScrolledRight(old(ctx.Snap()))
  {
    var screenWidth := ctx.currentWidth;
    var screenHeight := ctx.currentHeight;
    ghost var sel1, sel2 := SelectsPlane1(ctx.planeMask), SelectsPlane2(ctx.planeMask);
    ghost var p1, p2 := ctx.plane1[..], ctx.plane2[..];
    ghost var base := 0;
    for row := 0 to screenHeight
      invariant base == row * screenWidth
      invariant forall i :: 0 <= i < XO_SCREEN_SIZE ==>
        ctx.plane1[i] == if sel1 && i < base then ScrollRightCell(p1, screenWidth, screenHeight, i) else p1[i]
      invariant forall i :: 0 <= i < XO_SCREEN_SIZE ==>
        ctx.plane2[i] == if sel2 && i < base then ScrollRightCell(p2, screenWidth, screenHeight, i) else p2[i]
    {
      RowStep(screenWidth, screenHeight, row, 0);
      ShiftRowRight(ctx, row, base);
      forall i | base <= i < base + screenWidth
        ensures i % screenWidth == i - base && i < screenHeight * screenWidth
      {
        InRow(screenWidth, screenHeight, row, i);
      }
      base := base + screenWidth;
    }
    RowStep(screenWidth, screenHeight, screenHeight, 0);
    assert ctx.plane1[..] == if sel1 then ScrollRightPlane(p1, screenWidth, screenHeight) else p1;
    assert ctx.plane2[..] == if sel2 then ScrollRightPlane(p2, screenWidth, screenHeight) else p2;
  }

  /** One row of a left scroll by `shift`: the first `w - shift` columns (none if the shift
      is wider than the row) take the column `shift` to their right, copied left to right,
      and the remaining columns are cleared. */
  method ShiftRowLeft(ctx: VmContext, row: nat, shift: nat, ghost base: nat)
    requires ctx.Valid() && row < ctx.currentHeight && base == row * ctx.currentWidth
    requires base + ctx.currentWidth <= XO_SCREEN_SIZE
    modifies ctx.plane1, ctx.plane2
    ensures ctx.plane1[..] == RowShiftedLeft(old(ctx.plane1[..]), SelectsPlane1(ctx.planeMask), base, ctx.currentWidth, shift)
    ensures ctx.plane2[..] == RowShiftedLeft(old(ctx.plane2[..]), SelectsPlane2(ctx.planeMask), base, ctx.currentWidth, shift)
  {
    var screenWidth := ctx.currentWidth;
    var kept := if screenWidth >= shift then screenWidth - shift else 0;
    ghost var p1, p2 := ctx.plane1[..], ctx.plane2[..];
    ghost var sel1, sel2 := SelectsPlane1(ctx.planeMask), SelectsPlane2(ctx.planeMask);
    CopyRowLeft(ctx, row, shift, kept, base);
    ghost var c1, c2 := ctx.plane1[..], ctx.plane2[..];
    ClearRow(ctx, row, kept, base);
    assert forall i :: 0 <= i < XO_SCREEN_SIZE ==> ctx.plane1[..][i] == RowShiftedLeft(p1, sel1, base, screenWidth, shift)[i] by {
      forall i | 0 <= i < XO_SCREEN_SIZE
        ensures ctx.plane1[..][i] == RowShiftedLeft(p1, sel1, base, screenWidth, shift)[i]
      {
        assert c1[i] == CopiedLeft(p1, sel1, base, kept, shift)[i];
      }
    }
    assert forall i :: 0 <= i < XO_SCREEN_SIZE ==> ctx.plane2[..][i] == RowShiftedLeft(p2, sel2, base, screenWidth, shift)[i] by {
      forall i | 0 <= i < XO_SCREEN_SIZE
        ensures ctx.plane2[..][i] == RowShiftedLeft(p2, sel2, base, screenWidth, shift)[i]
      {
        assert c2[i] == CopiedLeft(p2, sel2, base, kept, shift)[i];
      }
    }
  }

  /** A plane after one row of a left scroll by `shift`, the row of width w at `base`:
      the first `w - shift` columns take the column `shift` to their right and the rest
      are clear (when the plane is selected). */
  ghost function RowShiftedLeft(p: seq<bool>, sel: bool, base: nat, w: nat, shift: nat): seq<bool>
    requires base + w <= |p|
  {
    seq(|p|, i requires 0 <= i < |p| =>
      if sel && base <= i < base + w then (if i - base < Kept(w, shift) then p[i + shift] else false) else p[i])
  }

  /** A plane after the first `col` columns of the row at `base` took the column `shift`
      to their right (when the plane is selected). */
  ghost function CopiedLeft(p: seq<bool>, sel: bool, base: nat, col: nat, shift: nat): seq<bool>
    requires col == 0 || base + col + shift <= |p|
  {
    seq(|p|, i requires 0 <= i < |p| => if sel && base <= i < base + col then p[i + shift] else p[i])
  }

  lemma CopiedLeftStep(p: seq<bool>, sel: bool, base: nat, col: nat, shift: nat)
    requires base + col + 1 + shift <= |p|
    ensures CopiedLeft(p, sel, base, col, shift)[base + col + shift] == p[base + col + shift]
    ensures CopiedLeft(p, sel, base, col + 1, shift)
      == CopiedLeft(p, sel, base, col, shift)[base + col := if sel then p[base + col + shift] else p[base + col]]
  {
  }

  /** The first column loop of a left scroll: columns 0..kept of the row take the column
      `shift` to their right, left to right, so every source is read before it is
      overwritten. */
  method CopyRowLeft(ctx: VmContext, row: nat, shift: nat, kept: nat, ghost base: nat)
    requires ctx.Valid() && row < ctx.currentHeight && base == row * ctx.currentWidth
    requires base + ctx.currentWidth <= XO_SCREEN_SIZE && kept == Kept(ctx.currentWidth, shift)
    modifies ctx.plane1, ctx.plane2
    ensures ctx.plane1[..] == CopiedLeft(old(ctx.plane1[..]), SelectsPlane1(ctx.planeMask), base, kept, shift)
    ensures ctx.plane2[..] == CopiedLeft(old(ctx.plane2[..]), SelectsPlane2(ctx.planeMask), base, kept, shift)
  {
    var screenWidth := ctx.currentWidth;
    ghost var p1, p2 := ctx.plane1[..], ctx.plane2[..];
    ghost var sel1, sel2 := SelectsPlane1(ctx.planeMask), SelectsPlane2(ctx.planeMask);
    for col := 0 to kept
      invariant ctx.plane1[..] == CopiedLeft(p1, sel1, base, col, shift)
      invariant ctx.plane2[..] == CopiedLeft(p2, sel2, base, col, shift)
    {
      var srcIdx := (col + shift) + row * screenWidth;
      var dstIdx := col + row * screenWidth;
      assert dstIdx == base + col && srcIdx == dstIdx + shift < base + screenWidth;
      CopiedLeftStep(p1, sel1, base, col, shift);
      CopiedLeftStep(p2, sel2, base, col, shift);
      if srcIdx < XO_SCREEN_SIZE && dstIdx < XO_SCREEN_SIZE {
        if SelectsPlane1(ctx.planeMask) {
          ctx.plane1[dstIdx] := ctx.plane1[srcIdx];
        }
        if SelectsPlane2(ctx.planeMask) {
          ctx.plane2[dstIdx] := ctx.plane2[srcIdx];
        }
      }
    }
  }

  /** The row loop shared by `scroll_left` and `scroll_left_n`. */
  method ScrollRowsLeft(ctx: VmContext, shift: nat)
    requires ctx.Valid()
    modifies ctx.plane1, ctx.plane2
    ensures ctx.Snap() == ScrolledLeft(old(ctx.Snap()), shift)
  {
    var screenWidth := ctx.currentWidth;
    var screenHeight := ctx.currentHeight;
    ghost var sel1, sel2 := SelectsPlane1(ctx.planeMask), SelectsPlane2(ctx.planeMask);
    ghost var p1, p2 := ctx.plane1[..], ctx.plane2[..];
    ghost var base := 0;
    for row := 0 to screenHeight
      invariant base == row * screenWidth
      invariant forall i :: 0 <= i < XO_SCREEN_SIZE ==>
        ctx.plane1[i] == if sel1 && i < base then ScrollLeftCell(p1, screenWidth, screenHeight, shift, i) else p1[i]
      invariant forall i :: 0 <= i < XO_SCREEN_SIZE ==>
        ctx.plane2[i] == if sel2 && i < base then ScrollLeftCell(p2, screenWidth, screenHeight, shift, i) else p2[i]
    {
      RowStep(screenWidth, screenHeight, row, 0);
      RowStep(screenWidth, screenHeight, row + 1, 0);
      ghost var b1, b2 := ctx.plane1[..], ctx.plane2[..];
      ShiftRowLeft(ctx, row, shift, base);
      forall i | base <= i < base + screenWidth
        ensures i % screenWidth == i - base && i < screenHeight * screenWidth
      {
        InRow(screenWidth, screenHeight, row, i);
      }
      assert forall i :: 0 <= i < XO_SCREEN_SIZE ==> ctx.plane1[i] == RowShiftedLeft(b1, sel1, base, screenWidth, shift)[i];
      assert forall i :: 0 <= i < XO_SCREEN_SIZE ==> ctx.plane2[i] == RowShiftedLeft(b2, sel2, base, screenWidth, shift)[i];
      base := base + screenWidth;
    }
    RowStep(screenWidth, screenHeight, screenHeight, 0);
    assert ctx.plane1[..] == if sel1 then ScrollLeftPlane(p1, screenWidth, screenHeight, shift) else p1;
    assert ctx.plane2[..] == if sel2 then ScrollLeftPlane(p2, screenWidth, screenHeight, shift) else p2;
  }

  /** src/xo.rs `scroll_left` (a left scroll by 4) */
  method ScrollLeft(ctx: VmContext)
    requires ctx.Valid()
    modifies ctx.plane1, ctx.plane2
    ensures ctx.Snap() == ScrolledLeft(old(ctx.Snap()), 4)
  {
    ScrollRowsLeft(ctx, 4);
  }

  /** src/xo.rs `scroll_left_n`: a shift of 0 returns at once, which agrees with the general
      case because a left scroll by 0 changes nothing. */
  method ScrollLeftN(ctx: VmContext, n: Byte)
    requires ctx.Valid()
    modifies ctx.plane1, ctx.plane2
    ensures ctx.Snap() == ScrolledLeft(old(ctx.Snap()), n)
  {
    var shift: nat := n;
    if shift == 0 {
      ScrollLeftZero(ctx.Snap());
      return;
    }
    ScrollRowsLeft(ctx, shift);
  }
}
