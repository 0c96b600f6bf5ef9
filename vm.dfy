/** The machine state of src/vm.rs: `Chip8VM` with its construction, reset, fetch, stack and
    timer primitives. The base opcode table and the extension dispatch loop are not part of
    that file, so `Tick` only fetches, as the source does.

    Index panics of the source (fetching past memory, pushing onto a full stack, popping an
    empty one) are preconditions here. */
module Vm {
  import opened Conf

  const START_ADDR: Word := 0x200
  const FONTSET_SIZE: nat := 80
  const LOW_RES_SIZE: nat := 2048

  /** The built-in 4x5 hexadecimal font, five bytes per digit 0..F. */
  const FONTSET: seq<Byte> :=
    [0xF0, 0x90, 0x90, 0x90, 0xF0] +
    [0x20, 0x60, 0x20, 0x20, 0x70] +
    [0xF0, 0x10, 0xF0, 0x80, 0xF0] +
    [0xF0, 0x10, 0xF0, 0x10, 0xF0] +
    [0x90, 0x90, 0xF0, 0x10, 0x10] +
    [0xF0, 0x80, 0xF0, 0x10, 0xF0] +
    [0xF0, 0x80, 0xF0, 0x90, 0xF0] +
    [0xF0, 0x10, 0x20, 0x40, 0x40] +
    [0xF0, 0x90, 0xF0, 0x90, 0xF0] +
    [0xF0, 0x90, 0xF0, 0x10, 0xF0] +
    [0xF0, 0x90, 0xF0, 0x90, 0x90] +
    [0xE0, 0x90, 0xE0, 0x90, 0xE0] +
    [0xF0, 0x80, 0x80, 0x80, 0xF0] +
    [0xE0, 0x90, 0x90, 0x90, 0xE0] +
    [0xF0, 0x80, 0xF0, 0x80, 0xF0] +
    [0xF0, 0x80, 0xF0, 0x80, 0x80]

  /** Memory as `new` leaves it: the font at 0..80, zero above. */
  function FreshMemory(): (mem: seq<Byte>)
    ensures |mem| == RAM_SIZE && mem[..FONTSET_SIZE] == FONTSET
    ensures forall a :: FONTSET_SIZE <= a < RAM_SIZE ==> mem[a] == 0
  {
    FONTSET + seq(RAM_SIZE - FONTSET_SIZE, _ => 0)
  }

  /** Memory as `reset` leaves it: zero everywhere. */
  function ZeroedMemory(): (mem: seq<Byte>)
    ensures |mem| == RAM_SIZE && forall a :: 0 <= a < RAM_SIZE ==> mem[a] == 0
  {
    seq(RAM_SIZE, _ => 0)
  }

  /** `reset` as written does not restore the memory `new` builds: the glyph of digit 0
      starts with 0xF0, which the zeroed memory does not hold. */
  lemma {:induction false} ResetLosesFont()
    ensures ZeroedMemory()[..FONTSET_SIZE] != FONTSET
    ensures ZeroedMemory() != FreshMemory()
  {
    assert FreshMemory()[..FONTSET_SIZE][0] == 0xF0;
    assert ZeroedMemory()[..FONTSET_SIZE][0] == 0;
  }

  // ---------------------------------------------------------------- values

  /** The big-endian 16-bit word of two bytes. */
  function Word16(hi: Byte, lo: Byte): (w: Word)
  {
    hi * 256 + lo
  }

  /** Splitting a fetched opcode gives back its two bytes, and its nibbles are those of the
      two bytes. */
  lemma Word16Split(hi: Byte, lo: Byte)
    ensures Word16(hi, lo) / 256 == hi && Word16(hi, lo) % 256 == lo
    ensures D1(Word16(hi, lo)) == hi / 16 && D2(Word16(hi, lo)) == hi % 16
    ensures D3(Word16(hi, lo)) == lo / 16 && D4(Word16(hi, lo)) == lo % 16 && LowByte(Word16(hi, lo)) == lo
  {
    var w := Word16(hi, lo);
    assert w / 0x1000 == hi / 16;
    assert w / 0x100 == hi;
    assert w / 0x10 == hi * 16 + lo / 16;
  }

  /** The return stack as a value: its 16 slots and the stack pointer. */
  datatype CallStack = CallStack(slots: seq<Word>, sp: nat)

  predicate StackOk(cs: CallStack)
  {
    |cs.slots| == STACK_SIZE && cs.sp <= STACK_SIZE
  }

  /** `push_to_stack` on values. */
  function Pushed(cs: CallStack, val: Word): (r: CallStack)
    requires StackOk(cs) && cs.sp < STACK_SIZE
    ensures StackOk(r) && r.sp == cs.sp + 1
  {
    CallStack(cs.slots[cs.sp := val], cs.sp + 1)
  }

  /** `pop_from_stack` on values: the value on top and the stack without it. */
  function Popped(cs: CallStack): (r: (Word, CallStack))
    requires StackOk(cs) && cs.sp > 0
    ensures StackOk(r.1) && r.1.sp == cs.sp - 1 && r.1.slots == cs.slots
  {
    (cs.slots[cs.sp - 1], CallStack(cs.slots, cs.sp - 1))
  }

  /** A pop right after a push returns the pushed value and restores the stack pointer. */
  lemma PushThenPop(cs: CallStack, val: Word)
    requires StackOk(cs) && cs.sp < STACK_SIZE
    ensures Popped(Pushed(cs, val)).0 == val
    ensures Popped(Pushed(cs, val)).1.sp == cs.sp
    ensures Popped(Pushed(cs, val)).1.slots[..cs.sp] == cs.slots[..cs.sp]
  {
  }

  /** Last in, first out: after pushing a then b, pops give b and then a. */
  lemma {:induction false} LastInFirstOut(cs: CallStack, a: Word, b: Word)
    requires StackOk(cs) && cs.sp + 2 <= STACK_SIZE
    ensures var p1 := Popped(Pushed(Pushed(cs, a), b));
      p1.0 == b && Popped(p1.1).0 == a && Popped(p1.1).1.sp == cs.sp
  {
    var s1 := Pushed(cs, a);
    var s2 := Pushed(s1, b);
    assert s2.slots[cs.sp] == a;
  }

  /** One timer tick: a non-zero timer goes down by one, zero stays zero. */
  function Countdown(t: Byte): (r: Byte)
    ensures r <= t && (t > 0 ==> r == t - 1) && (t == 0 ==> r == 0)
  {
    if t > 0 then t - 1 else 0
  }

  /** k ticks. */
  function CountdownN(t: Byte, k: nat): Byte
  {
    if k == 0 then t else CountdownN(Countdown(t), k - 1)
  }

  /** After k ticks a timer holds max(t - k, 0): it never wraps below zero. */
  lemma {:induction false} CountdownClosedForm(t: Byte, k: nat)
    ensures CountdownN(t, k) == if t >= k then t - k else 0
  {
    if k > 0 {
      CountdownClosedForm(Countdown(t), k - 1);
    }
  }

  // ---------------------------------------------------------------- the machine

  /** src/vm.rs `Chip8VM`. */
  class Chip8VM {
    var pc: Word
    const memory: array<Byte>
    const screen: array<bool>
    const registers: array<Byte>
    var index: Word
    var sp: Word
    const stack: array<Word>
    const keys: array<bool>
    var delayTimer: Byte
    var soundTimer: Byte

    ghost predicate Valid()
      reads this
    {
      && memory.Length == RAM_SIZE
      && screen.Length == LOW_RES_SIZE
      && registers.Length == REGISTER_COUNT
      && stack.Length == STACK_SIZE
      && keys.Length == KEYS_COUNT
      && memory != registers
    }

    /** The return stack as a value. */
    ghost function Frames(): CallStack
      reads this, stack
    {
      CallStack(stack[..], sp)
    }

    /** src/vm.rs `new`: the program counter at 0x200, the font at 0..80, everything else
        zero or false. */
    constructor ()
      ensures Valid() && fresh(memory) && fresh(screen) && fresh(registers) && fresh(stack) && fresh(keys)
      ensures Cleared() && memory[..] == FreshMemory()
    {
      pc := START_ADDR;
      var mem := new Byte[RAM_SIZE](_ => 0);
      screen := new bool[LOW_RES_SIZE](_ => false);
      registers := new Byte[REGISTER_COUNT](_ => 0);
      index := 0;
      sp := 0;
      stack := new Word[STACK_SIZE](_ => 0);
      keys := new bool[KEYS_COUNT](_ => false);
      delayTimer := 0;
      soundTimer := 0;
      forall a | 0 <= a < FONTSET_SIZE {
        mem[a] := FONTSET[a];
      }
      assert mem[..] == FreshMemory();
      memory := mem;
    }

    /** src/vm.rs `reset` as written: every field back to zero and pc to 0x200, but the
        memory is zeroed whole and the font is not copied in again. */
    method Reset()
      requires Valid()
      modifies this, memory, screen, registers, stack, keys
      ensures Valid() && Cleared()
      ensures memory[..] == ZeroedMemory()
    {
      forall a | 0 <= a < RAM_SIZE {
        memory[a] := 0;
      }
      ClearOthers();
    }

    /** `reset` with the font loaded again, as `new` does: afterwards the machine holds
        exactly what a freshly constructed one holds. */
    method ResetWithFont()
      requires Valid()
      modifies this, memory, screen, registers, stack, keys
      ensures Valid() && Cleared()
      ensures memory[..] == FreshMemory()
    {
      forall a | 0 <= a < RAM_SIZE {
        memory[a] := if a < FONTSET_SIZE then FONTSET[a] else 0;
      }
      ClearOthers();
    }

    /** Every field except memory as `new` leaves it. */
    ghost predicate Cleared()
      requires Valid()
      reads this, screen, registers, stack, keys
    {
      && pc == START_ADDR && index == 0 && sp == 0 && delayTimer == 0 && soundTimer == 0
      && (forall i :: 0 <= i < LOW_RES_SIZE ==> !screen[i])
      && (forall i :: 0 <= i < REGISTER_COUNT ==> registers[i] == 0)
      && (forall i :: 0 <= i < STACK_SIZE ==> stack[i] == 0)
      && (forall i :: 0 <= i < KEYS_COUNT ==> !keys[i])
    }

    /** The part of `reset` shared by both versions. */
    method ClearOthers()
      requires Valid()
      modifies this, screen, registers, stack, keys
      ensures Valid() && Cleared()
    {
      pc := START_ADDR;
      forall i | 0 <= i < LOW_RES_SIZE {
        screen[i] := false;
      }
      forall i | 0 <= i < REGISTER_COUNT {
        registers[i] := 0;
      }
      index := 0;
      sp := 0;
      forall i | 0 <= i < STACK_SIZE {
        stack[i] := 0;
      }
      forall i | 0 <= i < KEYS_COUNT {
        keys[i] := false;
      }
      delayTimer := 0;
      soundTimer := 0;
    }

    /** src/vm.rs `fetch`: the big-endian opcode at pc, and pc advanced past it. */
    method Fetch() returns (op: Word)
      requires Valid() && pc + 1 < RAM_SIZE
      modifies this
      ensures Valid() && pc == old(pc) + 2
      ensures op / 256 == memory[old(pc)] && op % 256 == memory[old(pc) + 1]
      ensures index == old(index) && sp == old(sp) && delayTimer == old(delayTimer) && soundTimer == old(soundTimer)
    {
      var hi := memory[pc];
      var lo := memory[pc + 1];
      op := Word16(hi, lo);
      Word16Split(hi, lo);
      pc := pc + 2;
    }

    /** src/vm.rs `tick`: fetches the next opcode and does nothing else with it yet. */
    method Tick()
      requires Valid() && pc + 1 < RAM_SIZE
      modifies this
      ensures Valid() && pc == old(pc) + 2
      ensures index == old(index) && sp == old(sp) && delayTimer == old(delayTimer) && soundTimer == old(soundTimer)
    {
      var op := Fetch();
    }

    /** src/vm.rs `tick_timers` (the beep at a sound timer of 1 has no body). */
    method TickTimers()
      requires Valid()
      modifies this
      ensures Valid() && delayTimer == Countdown(old(delayTimer)) && soundTimer == Countdown(old(soundTimer))
      ensures pc == old(pc) && index == old(index) && sp == old(sp)
    {
      if delayTimer > 0 {
        delayTimer := delayTimer - 1;
      }
      if soundTimer > 0 {
        soundTimer := soundTimer - 1;
      }
    }

    /** src/vm.rs `push_to_stack`. */
    method PushToStack(val: Word)
      requires Valid() && sp < STACK_SIZE
      modifies this, stack
      ensures Valid() && Frames() == Pushed(old(Frames()), val)
      ensures pc == old(pc) && index == old(index)
      ensures delayTimer == old(delayTimer) && soundTimer == old(soundTimer)
    {
      stack[sp] := val;
      sp := sp + 1;
    }

    /** src/vm.rs `pop_from_stack`. */
    method PopFromStack() returns (val: Word)
      requires Valid() && 0 < sp <= STACK_SIZE
      modifies this
      ensures Valid() && (val, Frames()) == Popped(old(Frames()))
      ensures pc == old(pc) && index == old(index)
      ensures delayTimer == old(delayTimer) && soundTimer == old(soundTimer)
    {
      val := stack[sp - 1];
      sp := sp - 1;
    }
  }
}
