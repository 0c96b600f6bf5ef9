/** The XO-CHIP extension of src/xo.rs: its opcode decoding (`handle_instruction`), the
    register range transfers 5XY2/5XY3, plane selection FX01, the large-font pointer FX30 and
    the audio read FX0F. Scrolls and resolution switches are in XoPlanes, sprite draws in
    XoDraw.

    `XoStep` is the whole handler as a function of the machine value; `XoChip` is the
    extension object and its `HandleInstruction` is proved to agree with `XoStep`. */
module Xo {
  import opened Conf
  import opened Extensions
  import opened XoPlanes
  import opened XoDraw

  const EXIT_MSG := "XO-Chip Exit instruction (00FD) encountered."
  const AUDIO_OOB := "Audio buffer out of bounds"
  /** Indexing memory at an address past its end aborts the process. */
  const INDEX_PANIC := "index out of bounds"

  // ---------------------------------------------------------------- 5XY2 / 5XY3

  /** Memory after the n registers from Vx on are stored from address `start` on. */
  function SavedMemory(mem: seq<Byte>, regs: seq<Byte>, start: nat, x: nat, n: nat): (r: seq<Byte>)
    requires |mem| == RAM_SIZE && |regs| == REGISTER_COUNT && x + n <= REGISTER_COUNT
    ensures |r| == RAM_SIZE
  {
    seq(RAM_SIZE, a requires 0 <= a < RAM_SIZE => if start <= a < start + n then regs[x + (a - start)] else mem[a])
  }

  /** Registers after the n registers from Vx on are loaded from address `start` on. */
  function LoadedRegisters(regs: seq<Byte>, mem: seq<Byte>, start: nat, x: nat, n: nat): (r: seq<Byte>)
    requires |mem| == RAM_SIZE && |regs| == REGISTER_COUNT && x + n <= REGISTER_COUNT
    requires n == 0 || start + n <= RAM_SIZE
    ensures |r| == REGISTER_COUNT
  {
    seq(REGISTER_COUNT, i requires 0 <= i < REGISTER_COUNT => if x <= i < x + n then mem[start + (i - x)] else regs[i])
  }

  /** How many addresses from `start` on are inside memory. */
  function Room(start: nat): (r: nat)
    ensures start + r <= RAM_SIZE || r == 0
    ensures start < RAM_SIZE ==> start + r == RAM_SIZE
  {
    if start < RAM_SIZE then RAM_SIZE - start else 0
  }

  /** 5XY2 for x <= y: Vx..Vy are stored at I, I+1, ... and I ends one past the last one; a
      write past the end of memory panics with the registers before it already stored. */
  function SaveStep(m: Machine, x: nat, y: nat): Step
    requires x <= y < REGISTER_COUNT
  {
    var n := y - x + 1;
    if m.index + n <= RAM_SIZE then
      Step(Ok(true), m.(memory := SavedMemory(m.memory, m.registers, m.index, x, n), index := m.index + n))
    else
      Step(Panicked(INDEX_PANIC), m.(memory := SavedMemory(m.memory, m.registers, m.index, x, Room(m.index))))
  }

  /** 5XY3 for x <= y: Vx..Vy are loaded from I, I+1, ...; same end of I and same panic. */
  function LoadStep(m: Machine, x: nat, y: nat): Step
    requires x <= y < REGISTER_COUNT
  {
    var n := y - x + 1;
    if m.index + n <= RAM_SIZE then
      Step(Ok(true), m.(registers := LoadedRegisters(m.registers, m.memory, m.index, x, n), index := m.index + n))
    else
      Step(Panicked(INDEX_PANIC), m.(registers := LoadedRegisters(m.registers, m.memory, m.index, x, Room(m.index))))
  }

  /** What 5XY2 stores: memory cell I + j holds V(x + j) for the stored range, and every
      other cell keeps its value. */
  lemma SaveWritesRange(m: Machine, x: nat, y: nat, a: nat)
    requires x <= y < REGISTER_COUNT && a < RAM_SIZE
    ensures var s := SaveStep(m, x, y);
      var n := if s.outcome.Ok? then y - x + 1 else Room(m.index);
      s.after.memory[a] == if m.index <= a < m.index + n then m.registers[x + (a - m.index)] else m.memory[a]
    ensures SaveStep(m, x, y).outcome.Panicked? <==> m.index + (y - x) >= RAM_SIZE
    ensures SaveStep(m, x, y).after.registers == m.registers
  {
  }

  /** Storing Vx..Vy with 5XY2 and loading them back with 5XY3 from the same I gives back
      the registers, leaves memory as stored and advances I the same way. */
  lemma {:induction false} SaveThenLoad(m: Machine, x: nat, y: nat)
    requires x <= y < REGISTER_COUNT && m.index + (y - x) < RAM_SIZE
    ensures var s := SaveStep(m, x, y).after;
      var l := LoadStep(s.(index := m.index), x, y);
      l.outcome == Ok(true) && l.after.registers == m.registers &&
      l.after.memory == s.memory && l.after.index == s.index
  {
    var n := y - x + 1;
    var s := SaveStep(m, x, y).after;
    var back := LoadedRegisters(s.registers, s.memory, m.index, x, n);
    forall i | 0 <= i < REGISTER_COUNT
      ensures back[i] == m.registers[i]
    {
      if x <= i < x + n {
        assert s.memory[m.index + (i - x)] == m.registers[x + (m.index + (i - x) - m.index)];
      }
    }
  }

  /** The loop of 5XY2. */
  method SaveRegisters(ctx: VmContext, x: nat, y: nat) returns (r: Outcome)
    requires ctx.Valid() && x <= y < REGISTER_COUNT
    modifies ctx, ctx.memory
    ensures ctx.Valid() && Step(r, ctx.Snap()) == SaveStep(old(ctx.Snap()), x, y)
  {
    ghost var m := ctx.Snap();
    var currentI: nat := ctx.index;
    for regIdx := x to y + 1
      invariant currentI == m.index + (regIdx - x) && (regIdx > x ==> currentI <= RAM_SIZE)
      invariant ctx.memory[..] == SavedMemory(m.memory, m.registers, m.index, x, regIdx - x)
      modifies ctx.memory
    {
      if currentI >= RAM_SIZE {
        assert regIdx - x == Room(m.index);
        return Panicked(INDEX_PANIC);
      }
      ctx.memory[currentI] := ctx.registers[regIdx];
      currentI := currentI + 1;
    }
    ctx.index := currentI;
    return Ok(true);
  }

  /** The loop of 5XY3. */
  method LoadRegisters(ctx: VmContext, x: nat, y: nat) returns (r: Outcome)
    requires ctx.Valid() && x <= y < REGISTER_COUNT
    modifies ctx, ctx.registers
    ensures ctx.Valid() && Step(r, ctx.Snap()) == LoadStep(old(ctx.Snap()), x, y)
  {
    ghost var m := ctx.Snap();
    var currentI: nat := ctx.index;
    for regIdx := x to y + 1
      invariant currentI == m.index + (regIdx - x) && (regIdx > x ==> currentI <= RAM_SIZE)
      invariant ctx.registers[..] == LoadedRegisters(m.registers, m.memory, m.index, x, regIdx - x)
      modifies ctx.registers
    {
      if currentI >= RAM_SIZE {
        assert regIdx - x == Room(m.index);
        return Panicked(INDEX_PANIC);
      }
      ctx.registers[regIdx] := ctx.memory[currentI];
      currentI := currentI + 1;
    }
    ctx.index := currentI;
    return Ok(true);
  }

  // ---------------------------------------------------------------- FX0F

  /** `i16` */
  type I16 = v: int | -0x8000 <= v < 0x8000

  /** An unsigned 8-bit audio sample centred on 128 and scaled to 16 bits; the result always
      fits an `i16`, so the source's `i16` arithmetic cannot overflow. */
  function Sample(s: Byte): (v: I16)
    ensures v % 0x100 == 0 && -0x8000 <= v <= 0x7F00
  {
    (s as int - 128) * 256
  }

  /** The scaling loses nothing: the byte is recovered from the sample. */
  lemma SampleRoundTrip(s: Byte)
    ensures Sample(s) / 256 + 128 == s
  {
  }

  /** FX0F reads Vx bytes from I on; it fails exactly when they would run past memory. */
  function AudioOutcome(m: Machine, x: nat): (r: Outcome)
    requires x < REGISTER_COUNT
    ensures r == Ok(true) || r == Err(AUDIO_OOB)
  {
    if m.index + m.registers[x] > RAM_SIZE then Err(AUDIO_OOB) else Ok(true)
  }

  /** The 16-bit waveform `play_audio` builds from a buffer of samples (and then drops). */
  method Waveform(buffer: seq<Byte>) returns (waveform: seq<I16>)
    ensures |waveform| == |buffer|
    ensures forall i :: 0 <= i < |buffer| ==> waveform[i] / 256 + 128 == buffer[i]
  {
    waveform := [];
    for i := 0 to |buffer|
      invariant |waveform| == i
      invariant forall j :: 0 <= j < i ==> waveform[j] == Sample(buffer[j])
    {
      waveform := waveform + [(buffer[i] as int - 128) * 256];
    }
    forall i | 0 <= i < |buffer|
      ensures waveform[i] / 256 + 128 == buffer[i]
    {
      SampleRoundTrip(buffer[i]);
    }
  }

  /** src/xo.rs `play_audio`. Nothing of the machine changes: the waveform is discarded. */
  method PlayAudio(ctx: VmContext, x: nat) returns (r: Outcome)
    requires ctx.Valid() && x < REGISTER_COUNT
    ensures r == AudioOutcome(ctx.Snap(), x)
  {
    var addrStart: nat := ctx.index;
    var addrEnd: nat := addrStart + ctx.registers[x];
    if addrEnd > RAM_SIZE {
      return Err(AUDIO_OOB);
    }
    var audioBuffer := ctx.memory[addrStart..addrEnd];
    var waveform := Waveform(audioBuffer);
    return Ok(true);
  }

  // ---------------------------------------------------------------- the handler

  /** `handle_instruction` of the XO-CHIP extension on a machine value. In the 00CN arm the
      source tests for the low byte 0xFC to scroll left instead; that test never holds there
      (see `ScrollDownArmNeverScrollsLeft`), so 00CN always scrolls down. */
  function XoStep(active: bool, m: Machine, op: Word): Step
  {
    if !active then Step(Ok(false), m)
    else
      var d1, d2, d3, d4 := D1(op), D2(op), D3(op), D4(op);
      if d1 == 0 && d2 == 0 && d3 == 0xF && d4 == 0xD then Step(Err(EXIT_MSG), m)
      else if d1 == 0 && d2 == 0 && d3 == 0xF && d4 == 0xE then Step(Ok(true), Resized(m, SCREEN_WIDTH, SCREEN_HEIGHT))
      else if d1 == 0 && d2 == 0 && d3 == 0xF && d4 == 0xF then Step(Ok(true), Resized(m, HI_RES_WIDTH, HI_RES_HEIGHT))
      else if d1 == 0 && d2 == 0 && d3 == 0xF && d4 == 0xB then Step(Ok(true), ScrolledRight(m))
      else if d1 == 0 && d2 == 0 && d3 == 0xC then Step(Ok(true), ScrolledDown(m, d4))
      else if d1 == 0xD then
        var d := if d4 == 0 then WideDrawn(m, d2, d3) else SpriteDrawn(m, d2, d3, d4);
        Step(if d.failed() then Err(d.halt.msg) else Ok(true), AfterDraw(m, d))
      else if d1 == 0xF && d3 == 0 && d4 == 1 then Step(Ok(true), m.(planeMask := m.registers[d2] % 4))
      else if d1 == 0xF && d3 == 3 && d4 == 0 then
        Step(Ok(true), m.(index := LARGE_FONT_BASE_ADDR + m.registers[d2] as int * 10))
      else if d1 == 0xF && d3 == 0 && d4 == 0xF then Step(AudioOutcome(m, d2), m)
      else if d1 == 5 && d4 == 2 then (if d2 > d3 then Step(Ok(false), m) else SaveStep(m, d2, d3))
      else if d1 == 5 && d4 == 3 then (if d2 > d3 then Step(Ok(false), m) else LoadStep(m, d2, d3))
      else Step(Ok(false), m)
  }

  /** The extension as the dispatcher sees it. */
  function XoExtension(active: bool): (e: Extension)
    ensures e.active == active
  {
    Extension("XO-Chip", active, (m: Machine, op: Word) => XoStep(active, m, op))
  }

  /** The opcodes the extension claims (does not pass on). */
  predicate XoClaims(op: Word)
  {
    var d1, d2, d3, d4 := D1(op), D2(op), D3(op), D4(op);
    || (d1 == 0 && d2 == 0 && d3 == 0xF && d4 in {0xB, 0xD, 0xE, 0xF})
    || (d1 == 0 && d2 == 0 && d3 == 0xC)
    || d1 == 0xD
    || (d1 == 0xF && ((d3 == 0 && d4 in {1, 0xF}) || (d3 == 3 && d4 == 0)))
    || (d1 == 5 && d4 in {2, 3} && d2 <= d3)
  }

  /** An active XO-CHIP passes an opcode on exactly when it does not claim it, and passing
      on changes nothing, so it can sit anywhere in the extension chain. */
  lemma XoDeclinesExactly(m: Machine, op: Word)
    ensures XoStep(true, m, op).outcome == Ok(false) <==> !XoClaims(op)
    ensures DeclinesCleanly(XoExtension(true)) && DeclinesCleanly(XoExtension(false))
  {
    forall a: bool, m': Machine, op': Word | XoStep(a, m', op').outcome == Ok(false)
      ensures XoStep(a, m', op').after == m'
    {
    }
  }

  /** The low byte of a 00CN opcode is 0xCN, never 0xFC, so the scroll-left branch of that
      arm is never taken and 00FC itself is passed on. */
  lemma ScrollDownArmNeverScrollsLeft(m: Machine, op: Word)
    ensures D1(op) == 0 && D2(op) == 0 && D3(op) == 0xC ==> LowByte(op) != 0xFC
    ensures XoStep(true, m, 0x00FC) == Step(Ok(false), m)
  {
    if D1(op) == 0 && D2(op) == 0 && D3(op) == 0xC {
      NibblesRecompose(op);
    }
  }

  /** No XO-CHIP opcode touches the program counter, the stack, the timers, the keys, the
      flag registers or the base screen (except a 00CN scroll of the whole viewport). */
  lemma XoLeavesControlAlone(active: bool, m: Machine, op: Word)
    ensures var a := XoStep(active, m, op).after;
      a.pc == m.pc && a.stack == m.stack && a.sp == m.sp && a.keys == m.keys &&
      a.delayTimer == m.delayTimer && a.soundTimer == m.soundTimer && a.rplFlags == m.rplFlags
    ensures XoStep(active, m, op).after.screen != m.screen ==> D1(op) == 0 && D3(op) == 0xC && D4(op) >= m.height
    ensures XoStep(active, m, op).after.screen == m.screen
  {
  }

  /** FX01 selects planes by the two low bits of Vx; FX30 points I at a 10-byte glyph that
      lies inside memory. */
  lemma PlaneAndFontOpcodes(m: Machine, x: nat)
    requires x < REGISTER_COUNT
    ensures var a := XoStep(true, m, 0xF001 + x * 0x100).after;
      a.planeMask < 4 && SelectsPlane1(a.planeMask) == (m.registers[x] % 2 == 1) &&
      SelectsPlane2(a.planeMask) == ((m.registers[x] / 2) % 2 == 1)
    ensures var a := XoStep(true, m, 0xF030 + x * 0x100).after;
      a.index == LARGE_FONT_BASE_ADDR + 10 * m.registers[x] as int && a.index + 10 <= RAM_SIZE
  {
    assert D1(0xF001 + x * 0x100) == 0xF && D2(0xF001 + x * 0x100) == x;
    assert D3(0xF001 + x * 0x100) == 0 && D4(0xF001 + x * 0x100) == 1;
    assert D1(0xF030 + x * 0x100) == 0xF && D2(0xF030 + x * 0x100) == x;
    assert D3(0xF030 + x * 0x100) == 3 && D4(0xF030 + x * 0x100) == 0;
  }

  /** The XO-CHIP extension object of src/xo.rs. */
  class XoChip {
    var active: bool

    constructor (active: bool)
      ensures this.active == active
    {
      this.active := active;
    }

    /** src/xo.rs `handle_instruction`. */
    method HandleInstruction(ctx: VmContext, op: Word) returns (r: Outcome)
      requires ctx.Valid()
      modifies ctx, ctx.registers, ctx.memory, ctx.screen, ctx.plane1, ctx.plane2
      ensures ctx.Valid() && Step(r, ctx.Snap()) == XoStep(active, old(ctx.Snap()), op)
    {
      if !active {
        return Ok(false);
      }
      var d1, d2, d3, d4 := D1(op), D2(op), D3(op), D4(op);
      var x, y := d2, d3;
      if d1 == 0 && d2 == 0 && d3 == 0xF && d4 == 0xD {
        r := Err(EXIT_MSG);
      } else if d1 == 0 && d2 == 0 && d3 == 0xF && d4 == 0xE {
        SetLowResolution(ctx);
        r := Ok(true);
      } else if d1 == 0 && d2 == 0 && d3 == 0xF && d4 == 0xF {
        SetHighResolution(ctx);
        r := Ok(true);
      } else if d1 == 0 && d2 == 0 && d3 == 0xF && d4 == 0xB {
        ScrollRight(ctx);
        r := Ok(true);
      } else if d1 == 0 && d2 == 0 && d3 == 0xC {
        ScrollDown(ctx, d4);
        r := Ok(true);
      } else if d1 == 0xD && d4 == 0 {
        var halt := DrawWideSprite(ctx, x, y);
        r := if halt.OutOfBounds? then Err(halt.msg) else Ok(true);
      } else if d1 == 0xD {
        var halt := DrawSprite(ctx, x, y, d4);
        r := if halt.OutOfBounds? then Err(halt.msg) else Ok(true);
      } else if d1 == 0xF && d3 == 0 && d4 == 1 {
        ctx.planeMask := ctx.registers[x] % 4;
        r := Ok(true);
      } else if d1 == 0xF && d3 == 3 && d4 == 0 {
        ctx.index := LARGE_FONT_BASE_ADDR + ctx.registers[x] as int * 10;
        r := Ok(true);
      } else if d1 == 0xF && d3 == 0 && d4 == 0xF {
        r := PlayAudio(ctx, x);
      } else if d1 == 5 && d4 == 2 {
        if x > y {
          return Ok(false);
        }
        r := SaveRegisters(ctx, x, y);
      } else if d1 == 5 && d4 == 3 {
        if x > y {
          return Ok(false);
        }
        r := LoadRegisters(ctx, x, y);
      } else {
        r := Ok(false);
      }
    }
  }
}
