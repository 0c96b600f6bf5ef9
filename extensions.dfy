/** The extension interface of src/extensions.rs.

    A `VmContext` is the field-by-field mutable view of the machine handed to an extension
    for one call. Here it is a class whose buffers are fixed arrays (they can be written but
    never replaced or resized) and whose scalars are fields; `keys` is a shared borrow in the
    source, so it is an immutable value. `MachineState` is the value of all those fields at one
    moment, and every handler is specified as a function from one such value to the next. */
module Extensions {
  import opened Conf

  /** The value of every field a `VmContext` gives access to. */
  datatype MachineState = MachineState(
    pc: Word,
    registers: seq<Byte>,
    index: Word,
    stack: seq<Word>,
    sp: Word,
    memory: seq<Byte>,
    screen: seq<bool>,
    keys: seq<bool>,
    delayTimer: Byte,
    soundTimer: Byte,
    width: nat,
    height: nat,
    rplFlags: seq<Byte>,
    plane1: seq<bool>,
    plane2: seq<bool>,
    planeMask: Byte)

  /** The two viewports the code ever selects: 64x32 and 128x64. */
  predicate Viewport(w: nat, h: nat)
  {
    (w == SCREEN_WIDTH && h == SCREEN_HEIGHT) || (w == HI_RES_WIDTH && h == HI_RES_HEIGHT)
  }

  /** Buffer lengths are those of the source's fixed-size array types. */
  predicate WellFormed(m: MachineState)
  {
    && |m.registers| == REGISTER_COUNT
    && |m.stack| == STACK_SIZE
    && |m.memory| == RAM_SIZE
    && |m.screen| == HI_RES_SIZE
    && |m.keys| == KEYS_COUNT
    && |m.rplFlags| == FLAG_COUNT
    && |m.plane1| == XO_SCREEN_SIZE
    && |m.plane2| == XO_SCREEN_SIZE
    && Viewport(m.width, m.height)
  }

  type Machine = m: MachineState | WellFormed(m)
    witness MachineState(0, seq(16, _ => 0), 0, seq(16, _ => 0), 0, seq(4096, _ => 0),
                         seq(8192, _ => false), seq(16, _ => false), 0, 0, 64, 32,
                         seq(8, _ => 0), seq(8192, _ => false), seq(8192, _ => false), 0)

  /** `Result<bool>` of `handle_instruction`, plus the panics of the unchecked paths
      (after which the process aborts, so the state they leave does not matter). */
  datatype Outcome = Ok(handled: bool) | Err(msg: string) | Panicked(reason: string)

  /** What one call of a handler returns and leaves behind. */
  datatype Step = Step(outcome: Outcome, after: Machine)

  /** An extension as the dispatcher sees it: its name, its activation flag and its
      instruction handler. */
  datatype Extension = Extension(name: string, active: bool, handle: (Machine, Word) -> Step)

  /** `Ok(true)`: the opcode was handled and execution of this opcode stops. */
  predicate Accepts(e: Extension, m: Machine, op: Word)
  {
    e.active && e.handle(m, op).outcome == Ok(true)
  }

  /** Not offered (inactive) or `Ok(false)`: falls through to the next extension. */
  predicate Declines(e: Extension, m: Machine, op: Word)
  {
    !e.active || e.handle(m, op).outcome == Ok(false)
  }

  /** A handler that declines an opcode leaves the machine as it found it. */
  ghost predicate DeclinesCleanly(e: Extension)
  {
    forall m: Machine, op: Word :: e.handle(m, op).outcome == Ok(false) ==> e.handle(m, op).after == m
  }

  /** Where an opcode ends up after the extensions have been offered it in order. */
  datatype Dispatched =
    | Consumed(position: nat, after: Machine)
    | Failed(position: nat, outcome: Outcome, after: Machine)
    | FallThrough(after: Machine)

  /** The documented protocol over an ordered extension list, from position k on: the
      first active extension returning `Ok(true)` consumes the opcode and no later one sees
      it; `Ok(false)` passes it on; an error stops the step; if all decline, the opcode
      falls through to the base interpreter. */
  function DispatchFrom(exts: seq<Extension>, k: nat, m: Machine, op: Word): Dispatched
    decreases |exts| - k
  {
    if k >= |exts| then FallThrough(m)
    else if !exts[k].active then DispatchFrom(exts, k + 1, m, op)
    else
      var s := exts[k].handle(m, op);
      match s.outcome
      case Ok(handled) => if handled then Consumed(k, s.after) else DispatchFrom(exts, k + 1, s.after, op)
      case _ => Failed(k, s.outcome, s.after)
  }

  predicate ConsumedBy(d: Dispatched, k: nat)
  {
    d.Consumed? && d.position == k
  }

  function Dispatch(exts: seq<Extension>, m: Machine, op: Word): Dispatched
  {
    DispatchFrom(exts, 0, m, op)
  }

  /** Extension k consumes the opcode exactly when it accepts it and every extension
      before it declines (for extensions that decline without side effects). */
  lemma {:induction false} DispatchFromConsumedIff(exts: seq<Extension>, k0: nat, m: Machine, op: Word, k: nat)
    requires forall j :: 0 <= j < |exts| ==> DeclinesCleanly(exts[j])
    requires k0 <= k
    ensures ConsumedBy(DispatchFrom(exts, k0, m, op), k) <==>
              (k < |exts| && Accepts(exts[k], m, op) && forall j :: k0 <= j < k ==> Declines(exts[j], m, op))
    ensures k < |exts| && ConsumedBy(DispatchFrom(exts, k0, m, op), k) ==>
              DispatchFrom(exts, k0, m, op).after == exts[k].handle(m, op).after
    decreases |exts| - k0
  {
    if k0 >= |exts| {
    } else if !exts[k0].active {
      if k0 < k {
        DispatchFromConsumedIff(exts, k0 + 1, m, op, k);
      } else {
        DispatchFromNeverBefore(exts, k0 + 1, m, op, k);
      }
    } else {
      var s := exts[k0].handle(m, op);
      if s.outcome == Ok(false) {
        assert DeclinesCleanly(exts[k0]);
        assert s.after == m;
        if k0 < k {
          DispatchFromConsumedIff(exts, k0 + 1, m, op, k);
        } else {
          DispatchFromNeverBefore(exts, k0 + 1, m, op, k);
        }
      }
    }
  }

  /** Dispatching from position k0 never reports a consumer before k0. */
  lemma {:induction false} DispatchFromNeverBefore(exts: seq<Extension>, k0: nat, m: Machine, op: Word, k: nat)
    requires k < k0
    ensures !ConsumedBy(DispatchFrom(exts, k0, m, op), k)
    decreases |exts| - k0
  {
    if k0 < |exts| {
      if !exts[k0].active {
        DispatchFromNeverBefore(exts, k0 + 1, m, op, k);
      } else {
        var s := exts[k0].handle(m, op);
        if s.outcome == Ok(false) {
          DispatchFromNeverBefore(exts, k0 + 1, s.after, op, k);
        }
      }
    }
  }

  /** The opcode reaches the base interpreter, on the unchanged machine, exactly when
      every extension declines it. */
  lemma {:induction false} DispatchFallThroughIff(exts: seq<Extension>, k0: nat, m: Machine, op: Word)
    requires forall j :: 0 <= j < |exts| ==> DeclinesCleanly(exts[j])
    ensures DispatchFrom(exts, k0, m, op).FallThrough? <==> forall j :: k0 <= j < |exts| ==> Declines(exts[j], m, op)
    ensures DispatchFrom(exts, k0, m, op).FallThrough? ==> DispatchFrom(exts, k0, m, op).after == m
    decreases |exts| - k0
  {
    if k0 < |exts| {
      if !exts[k0].active {
        DispatchFallThroughIff(exts, k0 + 1, m, op);
      } else {
        var s := exts[k0].handle(m, op);
        if s.outcome == Ok(false) {
          assert DeclinesCleanly(exts[k0]);
          DispatchFallThroughIff(exts, k0 + 1, m, op);
        }
      }
    }
  }

  /** Once an extension has consumed the opcode (or failed on it), extensions registered
      after the list seen so far are never consulted. */
  lemma {:induction false} DecidedIgnoresLater(exts: seq<Extension>, more: seq<Extension>, k0: nat, m: Machine, op: Word)
    requires !DispatchFrom(exts, k0, m, op).FallThrough?
    ensures DispatchFrom(exts + more, k0, m, op) == DispatchFrom(exts, k0, m, op)
    decreases |exts| - k0
  {
    assert k0 < |exts|;
    assert (exts + more)[k0] == exts[k0];
    if !exts[k0].active {
      DecidedIgnoresLater(exts, more, k0 + 1, m, op);
    } else {
      var s := exts[k0].handle(m, op);
      if s.outcome == Ok(false) {
        DecidedIgnoresLater(exts, more, k0 + 1, s.after, op);
      }
    }
  }

  /** The mutable view of the machine handed to an extension for one call. */
  class VmContext {
    var pc: Word
    const registers: array<Byte>
    var index: Word
    const stack: array<Word>
    var sp: Word
    const memory: array<Byte>
    const screen: array<bool>
    /** A shared borrow in the source: handlers can read keys but not change them. */
    const keys: seq<bool>
    var delayTimer: Byte
    var soundTimer: Byte
    var currentWidth: nat
    var currentHeight: nat
    const rplFlags: array<Byte>
    /** XO-CHIP bit-planes and plane selection (used by src/xo.rs, absent from the
        source's `VmContext` declaration). */
    const plane1: array<bool>
    const plane2: array<bool>
    var planeMask: Byte

    ghost predicate Valid()
      reads this
    {
      && registers.Length == REGISTER_COUNT
      && stack.Length == STACK_SIZE
      && memory.Length == RAM_SIZE
      && screen.Length == HI_RES_SIZE
      && |keys| == KEYS_COUNT
      && rplFlags.Length == FLAG_COUNT
      && plane1.Length == XO_SCREEN_SIZE
      && plane2.Length == XO_SCREEN_SIZE
      && Viewport(currentWidth, currentHeight)
      && registers != memory && registers != rplFlags && memory != rplFlags
      && screen != plane1 && screen != plane2 && plane1 != plane2
    }

    /** The value of every field of the view. */
    ghost function Snap(): Machine
      reads this, registers, stack, memory, screen, rplFlags, plane1, plane2
      requires Valid()
    {
      MachineState(pc, registers[..], index, stack[..], sp, memory[..], screen[..], keys,
                   delayTimer, soundTimer, currentWidth, currentHeight, rplFlags[..],
                   plane1[..], plane2[..], planeMask)
    }

    /** Borrows the machine's fields for one extension call. */
    constructor (pc: Word, registers: array<Byte>, index: Word, stack: array<Word>, sp: Word,
                 memory: array<Byte>, screen: array<bool>, keys: seq<bool>,
                 delayTimer: Byte, soundTimer: Byte, currentWidth: nat, currentHeight: nat,
                 rplFlags: array<Byte>, plane1: array<bool>, plane2: array<bool>, planeMask: Byte)
      requires registers.Length == REGISTER_COUNT && stack.Length == STACK_SIZE
      requires memory.Length == RAM_SIZE && screen.Length == HI_RES_SIZE && |keys| == KEYS_COUNT
      requires rplFlags.Length == FLAG_COUNT
      requires plane1.Length == XO_SCREEN_SIZE && plane2.Length == XO_SCREEN_SIZE
      requires Viewport(currentWidth, currentHeight)
      requires registers != memory && registers != rplFlags && memory != rplFlags
      requires screen != plane1 && screen != plane2 && plane1 != plane2
      ensures Valid()
      ensures Snap() == MachineState(pc, registers[..], index, stack[..], sp, memory[..], screen[..],
                                     keys, delayTimer, soundTimer, currentWidth, currentHeight,
                                     rplFlags[..], plane1[..], plane2[..], planeMask)
      ensures this.registers == registers && this.stack == stack && this.memory == memory
      ensures this.screen == screen && this.rplFlags == rplFlags
      ensures this.plane1 == plane1 && this.plane2 == plane2
    {
      this.pc := pc;
      this.registers := registers;
      this.index := index;
      this.stack := stack;
      this.sp := sp;
      this.memory := memory;
      this.screen := screen;
      this.keys := keys;
      this.delayTimer := delayTimer;
      this.soundTimer := soundTimer;
      this.currentWidth := currentWidth;
      this.currentHeight := currentHeight;
      this.rplFlags := rplFlags;
      this.plane1 := plane1;
      this.plane2 := plane2;
      this.planeMask := planeMask;
    }
  }
}
