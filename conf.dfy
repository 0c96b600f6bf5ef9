/** Machine-wide constants and the integer widths the emulator works with.

    The values of RAM_SIZE, REGISTER_COUNT, STACK_SIZE, KEYS_COUNT, SCREEN_WIDTH and
    SCREEN_HEIGHT are the ones written in src/vm.rs. The remaining constants come from a
    configuration file that is not part of this model; their values here are the ones the
    machine's documentation gives (a 128x64 high-resolution mode, an 8-byte flag bank),
    except LARGE_FONT_BASE_ADDR, which neither fixes: it is assumed to be the address right
    after the 80-byte small font. */
module Conf {

  const RAM_SIZE: nat := 4096
  const REGISTER_COUNT: nat := 16
  const STACK_SIZE: nat := 16
  const KEYS_COUNT: nat := 16

  const SCREEN_WIDTH: nat := 64
  const SCREEN_HEIGHT: nat := 32

  const HI_RES_WIDTH: nat := 128
  const HI_RES_HEIGHT: nat := 64

  /** Row stride of the XO-CHIP bit-planes and their size. */
  const XO_RES_WIDTH: nat := 128
  const XO_SCREEN_SIZE: nat := 8192

  /** Address of the 10-byte-per-glyph large font used by FX30 (assumed). */
  const LARGE_FONT_BASE_ADDR: nat := 0x50

  /** Number of Super-CHIP persistent flag registers. */
  const FLAG_COUNT: nat := 8

  /** Size of the context's screen buffer, sized for the largest resolution. */
  const HI_RES_SIZE: nat := 8192

  /** `u8` */
  type Byte = b: int | 0 <= b < 0x100

  /** `u16` */
  type Word = w: int | 0 <= w < 0x1_0000

  /** `usize` on the 64-bit targets the emulator is built for. */
  const USIZE_MAX: nat := 0xFFFF_FFFF_FFFF_FFFF

  /** 2^e */
  function Pow2(e: nat): (r: nat)
    ensures r >= 1
  {
    if e == 0 then 1 else 2 * Pow2(e - 1)
  }

  /** `(b & (0b1000_0000 >> k)) != 0`: bit k of b counted from the most significant end. */
  predicate MsbBit(b: Byte, k: nat)
    requires k < 8
  {
    (b / Pow2(7 - k)) % 2 == 1
  }

  /** The four 4-bit fields of an opcode, highest first. */
  function D1(op: Word): nat { op / 0x1000 }
  function D2(op: Word): nat { (op / 0x100) % 0x10 }
  function D3(op: Word): nat { (op / 0x10) % 0x10 }
  function D4(op: Word): nat { op % 0x10 }
  /** `opcode & 0xFF` */
  function LowByte(op: Word): nat { op % 0x100 }

  /** The decoding is lossless: the four fields put back together give the opcode. */
  lemma NibblesRecompose(op: Word)
    ensures D1(op) < 16 && D2(op) < 16 && D3(op) < 16 && D4(op) < 16
    ensures D1(op) * 0x1000 + D2(op) * 0x100 + D3(op) * 0x10 + D4(op) == op
    ensures LowByte(op) == D3(op) * 0x10 + D4(op)
  {
  }
}
