# CHIP-8 emulator core in Dafny

This project models the core of a CHIP-8 emulator written in Rust. It covers five parts:

- **The virtual machine.** `Chip8VM` holds 4 KiB of memory, the 80-byte small font loaded at
  address 0, sixteen 8-bit registers, the index register, a 16-slot call stack, two 8-bit
  timers and the program counter. The model covers construction, reset, fetch, the stack and
  the timers.
- **The extension interface.** `VmContext` is the mutable view of the machine an extension
  gets for one call. An extension's `handle_instruction` either consumes an opcode (`Ok(true)`),
  declines it (`Ok(false)`, so the next extension or the base interpreter runs) or fails.
- **Super-CHIP.** The resolution switches, the 16x16 sprite draw, the scrolls, the large-font
  pointer and the RPL flag transfers.
- **XO-CHIP.** Two bit-planes selected by a plane mask, the resolution switches, the
  scrolls, the 8xK and 16x16 sprite draws, the register-range save and load, and the audio
  buffer read.
- **The debugger.** A set of breakpoint addresses and the parser that turns one line of
  input into a debugger action. It includes the hexadecimal address parser.

Modules:

- `Conf` (conf.dfy): machine constants and opcode nibbles.
- `Extensions` (extensions.dfy): the `VmContext` class, the `MachineState` value it holds at
  one moment, and the dispatch rule of the extension contract.
- `XoPlanes` (xo_planes.dfy): XO-CHIP plane selection, resolution switches and scrolls.
- `XoDraw` (xo_draw.dfy): the XO-CHIP sprite draws.
- `Xo` (xo.dfy): the XO-CHIP opcode handler.
- `SuperChip` (superchip.dfy): the Super-CHIP handler.
- `Vm` (vm.dfy): the machine.
- `Debugger` (debugger.dfy): the debugger.

How the model is built:

- Each extension handler is a pure function from one machine value to the next: `XoStep` and
  `SuperChipStep`, each returning an outcome and the new state.
- The extension objects `XoChip` and `SuperChip8` have a `HandleInstruction` method that
  updates the `VmContext` arrays in place. Each method is proved to agree with its step
  function.
- Each loop of the source is a method with loop invariants. Each loop is specified by a
  function that gives the value of every cell afterwards.

### Behaviour kept as written

Several Super-CHIP arms do not do what their comments announce. The model keeps the code's
behaviour and proves what it actually does.

- **DXY0** places pixel (col, row) at screen row `y + col`. Every sprite row therefore
  lands on the same 16 diagonal cells (`DiagonalOnly`, `RowsCollapse`).
- **00CN** copies a 64x32 buffer into the 128x64 screen. The slice lengths differ, so this
  always panics. Its whole-screen clear needs N >= 32, which a 4-bit N never reaches.
- **00FB** builds a shifted copy in a local buffer and drops it, so the screen is unchanged.
- **00FC** starts its destination index at `0 - 4` and panics with an underflow.
- **FX75/FX85** transfer registers 0..=X into the 8-entry flag bank. For X >= 8 they
  panic after eight transfers.

XO-CHIP also keeps two quirks:

- The 00CN arm tests `nn == 0xFC`, which cannot hold because the low byte of 00CN is 0xCN. The
  arm always scrolls down, and 00FC is declined.
- The scrolls use the current width as the row stride, while the draws use the fixed stride
  128.

The machine's documentation says a reset re-embeds the font. `reset` in src/vm.rs does not
do this. The model follows the code; see Findings.

## Model

| member | source | states |
|---|---|---|
| Conf.NibblesRecompose | src/xo.rs:382-390 | the four opcode nibbles are each below 16 and recompose the opcode; the low byte NN is the last two nibbles |
| Extensions.DispatchFromConsumedIff | src/extensions.rs:32-36 | extension k consumes the opcode iff every earlier active extension declined it and k accepts; no extension after k runs |
| Extensions.DispatchFromNeverBefore | src/extensions.rs:32-36 | dispatch starting at extension k0 never reports an extension before k0 as the consumer |
| Extensions.DispatchFallThroughIff | src/extensions.rs:32-36 | the opcode falls through to the base interpreter iff every extension declines it, and then the machine is unchanged |
| Extensions.DecidedIgnoresLater | src/extensions.rs:32-36 | once an extension has consumed an opcode or failed, extensions appended after it make no difference |
| Extensions.VmContext.constructor | src/extensions.rs:6-23 | the context's state is exactly the fields it was built from |
| XoPlanes.ClearSelected | src/xo.rs:22-33 | each plane the mask selects becomes all false and an unselected plane is unchanged |
| XoPlanes.SetLowResolution | src/xo.rs:22-33 | the viewport becomes 64x32 and the selected planes are cleared, with nothing else changed |
| XoPlanes.SetHighResolution | src/xo.rs:35-46 | the viewport becomes 128x64 and the selected planes are cleared, with nothing else changed |
| XoPlanes.ResizedIdempotent | src/xo.rs:22-46 | switching to the same resolution twice is the same as once, and the base screen and keys are untouched |
| XoPlanes.ScrollDown | src/xo.rs:48-96 | the selected planes become the scrolled-down planes of the old state and everything else is unchanged |
| XoPlanes.ScrollDownMovesRows | src/xo.rs:48-96 | after scrolling down N, cell (c, r) holds old cell (c, r-N) for r >= N and is false above |
| XoPlanes.ScrollDownTwice | src/xo.rs:48-96 | on one plane, the viewport row shift by a and then by b equals the shift by a + b (the whole-plane clear of N >= height is not covered) |
| XoPlanes.ScrollDownZero | src/xo.rs:48-96 | scrolling down by 0 leaves the machine unchanged |
| XoPlanes.ScrollRight | src/xo.rs:98-133 | the selected planes become the planes scrolled right by 4 and everything else is unchanged |
| XoPlanes.ScrollRightMovesCols | src/xo.rs:98-133 | after the right scroll, cell (c, r) holds old cell (c-4, r) for c >= 4 and is false in the first four columns |
| XoPlanes.ScrollRowsLeft | src/xo.rs:172-211 | the selected planes become the planes scrolled left by the shift and everything else is unchanged |
| XoPlanes.ScrollLeft | src/xo.rs:135-170 | scroll_left is the left scroll by 4 |
| XoPlanes.ScrollLeftN | src/xo.rs:172-211 | scroll_left_n is the left scroll by N, and N = 0 changes nothing |
| XoPlanes.ScrollLeftMovesCols | src/xo.rs:172-211 | after a left scroll by s, cell (c, r) holds old cell (c+s, r) while c + s < width and is false after that |
| XoPlanes.ScrollRightThenLeft | src/xo.rs:98-170 | a right scroll followed by a left scroll by 4 restores every cell outside the last four columns |
| XoPlanes.ScrollLeftZero | src/xo.rs:172-211 | a left scroll by 0 leaves the machine unchanged |
| XoDraw.SpriteParity | src/xo.rs:213-262 | after the DXYK draw a cell of a selected plane is its old value XOR the parity of the sprite bits that land on it; an unselected plane is unchanged |
| XoDraw.SpriteTwiceRestores | src/xo.rs:213-262 | drawing the same sprite twice restores both planes |
| XoDraw.SpriteFailsIff | src/xo.rs:213-262 | the DXYK draw fails with the out-of-bounds error iff the sprite reads past the end of memory |
| XoDraw.SpriteFailureKeepsRows | src/xo.rs:213-262 | a failed draw leaves the rows that fit in memory drawn |
| XoDraw.SpriteNoCollision | src/xo.rs:213-262 | if the draw ends without a collision, no lit cell of either plane was turned off |
| XoDraw.WideParity | src/xo.rs:264-341 | after the 16x16 draw each selected-plane cell is its old value XOR the parity of the sprite bits landing on it |
| XoDraw.WideTwiceRestores | src/xo.rs:264-341 | drawing the same 16x16 sprite twice restores both planes |
| XoDraw.WidePlane2WithinSprite | src/xo.rs:264-341 | plane 2 only changes at cells the sprite covers |
| XoDraw.WideFailsIff | src/xo.rs:264-341 | unless both planes are selected, the 16x16 draw fails iff its 32 bytes run past memory, and then with the source's message |
| XoDraw.SpriteDrawnTwice | src/xo.rs:213-262 | on the machine, drawing the same DXYK sprite twice restores both planes |
| XoDraw.WideDrawnTwice | src/xo.rs:264-341 | on the machine, drawing the same 16x16 sprite twice restores both planes |
| XoDraw.DrawSprite | src/xo.rs:213-262 | the in-place draw leaves the planes, VF and the outcome that the DXYK fold gives on the old machine |
| XoDraw.DrawWideSprite | src/xo.rs:264-341 | the in-place draw leaves the planes, VF and the outcome that the 16x16 fold gives on the old machine |
| Xo.SaveRegisters | src/xo.rs:455-468 | 5XY2 writes Vx..Vy to memory from I, advances I by the count, and panics past the end of memory with the earlier writes kept |
| Xo.LoadRegisters | src/xo.rs:470-483 | 5XY3 reads Vx..Vy from memory from I, advances I by the count, and panics past the end of memory with the earlier reads kept |
| Xo.SaveThenLoad | src/xo.rs:455-483 | saving Vx..Vy and loading them back from the same I gives back the registers and leaves memory and the advanced I as the save left them |
| Xo.Sample | src/xo.rs:343-361 | every waveform sample is a multiple of 256 within the 16-bit range |
| Xo.SampleRoundTrip | src/xo.rs:343-361 | a sample determines its source byte: sample / 256 + 128 is the byte |
| Xo.PlayAudio | src/xo.rs:343-361 | FX0F succeeds iff I + Vx is within memory, otherwise it reports the audio error; the state is unchanged |
| Xo.XoDeclinesExactly | src/xo.rs:377-487 | an active XO-CHIP declines exactly the opcodes outside its table and then leaves the machine unchanged |
| Xo.ScrollDownArmNeverScrollsLeft | src/xo.rs:414-422 | the 00FC test inside the 00CN arm can never hold, and 00FC is declined |
| Xo.XoLeavesControlAlone | src/xo.rs:377-487 | no XO-CHIP opcode changes pc, the stack, sp, the keys, the timers or the flag bank; nor the base screen (the 00CN whole-screen clear would need N >= height, which no four-bit N reaches on a 32- or 64-row screen) |
| Xo.PlaneAndFontOpcodes | src/xo.rs:436-447 | FX01 sets the plane mask to Vx AND 3, and FX30 sets I to 0x50 + 10 * Vx |
| Xo.XoChip.HandleInstruction | src/xo.rs:377-487 | the in-place handler gives the outcome and new state of the step function, for every opcode |
| SuperChip.DiagParity | src/superchip.rs:20-62 | after DXY0 a screen cell is its old value XOR the parity of the sprite bits that hit it |
| SuperChip.DiagTwiceRestores | src/superchip.rs:20-62 | drawing the same DXY0 sprite twice restores the screen |
| SuperChip.DiagFailsIff | src/superchip.rs:20-62 | DXY0 fails iff its 32 bytes run past the end of memory |
| SuperChip.DiagonalOnly | src/superchip.rs:40-57 | DXY0 changes no cell off the 16 cells at (x+c, y+c) |
| SuperChip.DiagFlipsOffDiagonal | src/superchip.rs:40-57 | no sprite bit flips a cell off that diagonal |
| SuperChip.DiagCellInjective | src/superchip.rs:47-51 | the 16 diagonal cells are pairwise distinct |
| SuperChip.RowsCollapse | src/superchip.rs:30-58 | diagonal cell c ends as its old value XOR the parity of column c over all 16 rows |
| SuperChip.DiagNoCollision | src/superchip.rs:20-62 | if DXY0 ends without a collision, no lit screen cell was turned off |
| SuperChip.DrawScreenSprite | src/superchip.rs:20-62 | the in-place draw leaves the screen, VF and the outcome that the DXY0 fold gives |
| SuperChip.LowResScrollMovesRows | src/superchip.rs:120-128 | the 64x32 buffer holds row r-N of the screen in row r for r >= N and false above |
| SuperChip.BuildScrolledDown | src/superchip.rs:120-128 | the loop builds exactly that scrolled buffer |
| SuperChip.ScrollDownArm | src/superchip.rs:112-131 | 00CN always ends in the copy-length panic |
| SuperChip.BuildScrolledRight | src/superchip.rs:133-147 | every cell of the dropped buffer: the first 4*32+4 cells false, the first 32 pixels of rows 0..30 at (r+4)*32+4+c, row 31 whole at its destination, and false after it |
| SuperChip.SurvivorOfDst | src/superchip.rs:137-145 | pixel (c, r) with r < 31 and c < 32 is the one whose copy survives at its destination (r+4)*32+4+c |
| SuperChip.FlagsRoundTrip | src/superchip.rs:172-188 | FX75 then FX85 with the same X gives back the registers, and the flag bank holds the registers that were transferred |
| SuperChip.SaveFlags | src/superchip.rs:172-179 | FX75 copies V0..Vx into the flag bank, or the first 8 before it panics when X >= 8 |
| SuperChip.LoadFlags | src/superchip.rs:181-188 | FX85 copies flags 0..X into V0..Vx, or the first 8 before it panics when X >= 8 |
| SuperChip.SuperChipDeclinesExactly | src/superchip.rs:78-191 | an active Super-CHIP declines exactly the opcodes outside its table and leaves the machine unchanged |
| SuperChip.SuperChipLeavesControlAlone | src/superchip.rs:78-191 | no Super-CHIP opcode changes pc, the stack, sp, the keys, the timers, the planes or the plane mask; 00FE and 00FF change only the viewport |
| SuperChip.SuperChip8.HandleInstruction | src/superchip.rs:78-191 | the in-place handler gives the outcome and new state of the step function, for every opcode |
| Vm.FreshMemory | src/vm.rs:45-61 | fresh memory is 4096 bytes holding the font at 0..80 and zeros above |
| Vm.Chip8VM.constructor | src/vm.rs:45-61 | a new machine has pc 0x200, every register, timer, stack slot, key and pixel zero, and the font loaded |
| Vm.Chip8VM.Reset | src/vm.rs:63-74 | reset restores the power-on registers, timers, stack, keys and screen, and all-zero memory |
| Vm.ResetLosesFont | src/vm.rs:63-74 | the memory left by reset does not hold the font, so it differs from a new machine's |
| Vm.Chip8VM.ResetWithFont | src/vm.rs:45-74 | the corrected reset leaves exactly the state of a new machine, with the font |
| Vm.Word16Split | src/vm.rs:96-104 | the opcode built from hi and lo splits back into hi and lo, and its nibbles are those of hi and lo |
| Vm.Chip8VM.Fetch | src/vm.rs:96-104 | fetch returns the big-endian word at pc and pc, and advances pc by 2, leaving the other scalars alone |
| Vm.Chip8VM.Tick | src/vm.rs:76-81 | a tick advances pc by 2 and changes no other scalar |
| Vm.Countdown | src/vm.rs:83-94 | a timer decreases by one while positive and stays at zero |
| Vm.CountdownClosedForm | src/vm.rs:83-94 | k timer ticks leave max(t - k, 0) |
| Vm.Chip8VM.TickTimers | src/vm.rs:83-94 | both timers count down by one toward zero and nothing else changes |
| Vm.Pushed | src/vm.rs:106-109 | a push keeps the stack well formed and raises sp by one |
| Vm.Popped | src/vm.rs:111-115 | a pop keeps the stack well formed, lowers sp by one and leaves the slots |
| Vm.PushThenPop | src/vm.rs:106-115 | popping right after a push returns the pushed value and restores sp and the live slots |
| Vm.LastInFirstOut | src/vm.rs:106-115 | two pushes are popped in reverse order |
| Vm.Chip8VM.PushToStack | src/vm.rs:106-109 | the machine's stack becomes the pushed stack |
| Vm.Chip8VM.PopFromStack | src/vm.rs:111-115 | the machine returns the popped value and its stack becomes the popped stack |
| Debugger.Debugger.constructor | src/debugger.rs:19-23 | a new debugger has no breakpoints |
| Debugger.Debugger.ShouldBreak | src/debugger.rs:25-27 | break at pc iff pc is a breakpoint |
| Debugger.Debugger.SetBreakpoint | src/debugger.rs:29-31 | the address is added, the debugger breaks there, and no other address changes |
| Debugger.Debugger.ClearBreakpoint | src/debugger.rs:33-35 | the address is removed, the debugger no longer breaks there, and no other address changes |
| Debugger.Debugger.ParseBreakpoint | src/debugger.rs:61-69 | `break` needs exactly one argument and adds the parsed address |
| Debugger.Debugger.ParseClear | src/debugger.rs:71-79 | `clear` needs exactly one argument and removes the parsed address |
| Debugger.Debugger.ParseAndExecute | src/debugger.rs:37-59 | the action and new breakpoint set are those of the command interpretation of the line |
| Debugger.Tokens | src/debugger.rs:47 | whitespace splitting yields non-empty words without white space |
| Debugger.NoTokensIffBlank | src/debugger.rs:42-47 | a line has no words iff it is all white space |
| Debugger.TokensOfJoin | src/debugger.rs:47 | splitting words joined by single spaces gives the words back |
| Debugger.BlankLineContinues | src/debugger.rs:42-45 | a blank line continues and keeps the breakpoints |
| Debugger.OnlyBreakAndClearChange | src/debugger.rs:49-58 | only a successful break or clear changes the breakpoints, by adding or removing one address |
| Debugger.WrongArityIsUsage | src/debugger.rs:61-79 | break or clear with a wrong word count gives the usage error and keeps the breakpoints |
| Debugger.FirstTokenDecides | src/debugger.rs:49-58 | the first word picks the action (quit, step, continue, help) and an unknown word is reported |
| Debugger.InterpretJoin | src/debugger.rs:42-58 | a line of words joined by spaces is interpreted as those words |
| Debugger.BreakLine | src/debugger.rs:54-69 | `break 0x<hex>` adds that address and reports the breakpoints |
| Debugger.ClearLine | src/debugger.rs:55-79 | `clear 0x<hex>` removes that address and reports the breakpoints |
| Debugger.BreakThenClear | src/debugger.rs:29-35 | setting then clearing a new breakpoint leaves the set as it was |
| Debugger.InfoMemoryLine | src/debugger.rs:88-95 | `info memory <hex> <decimal>` gives ShowMemory with that address and length |
| Debugger.InfoMemoryArity | src/debugger.rs:88-91 | `info memory` with other than two arguments is a usage error |
| Debugger.AccumulateMeansValue | src/debugger.rs:161 | the checked digit loop succeeds iff all characters are digits and the value fits, and it yields that value |
| Debugger.DigitsRoundTrip | src/debugger.rs:161 | the digits of a number in base 2..16 parse back to it |
| Debugger.DigitsParse | src/debugger.rs:161 | parsing the digits of v gives v when v fits the bound and an error otherwise |
| Debugger.ParseAddr | src/debugger.rs:159-162 | an error message is "Invalid address: " followed by the stripped text |
| Debugger.AddrRoundTrip | src/debugger.rs:159-162 | every 16-bit address parses back from its hex digits, with or without one or two "0x" prefixes |
| Debugger.AddrPlusSign | src/debugger.rs:159-162 | a leading '+' is accepted |
| Debugger.AddrPrefixIgnored | src/debugger.rs:160 | an "0x" prefix does not change the result |
| Debugger.AddrRejectsOverflow | src/debugger.rs:159-162 | a value above 0xFFFF is rejected with its digits in the message |
| Debugger.AddrRejectsNonDigits | src/debugger.rs:159-162 | empty input and bare "0x" are rejected, and any text whose part after the "0x" prefixes and an optional '+' holds a non-hex character is rejected with that stripped text in the message |
| Debugger.AddrAcceptsExactly | src/debugger.rs:159-162 | an address parses iff the text after the "0x" prefixes and an optional '+' is a non-empty run of hex digits worth at most 0xFFFF; the result is that value, and an error carries the stripped text |
| Debugger.StripsPrefix | src/debugger.rs:160 | every leading "0x" is removed |
| Debugger.LengthRoundTrip | src/debugger.rs:93 | a decimal length parses back iff it fits in usize |

## Left out

- Terminal input and output, rendering, key polling, the sound device and the main loop (src/main.rs) are not part of this model.
- The opcode decode and execute of the base CHIP-8 instruction set are not part of this model. They are not in src/vm.rs, whose `tick` only fetches.
- `name`, `is_active` and `initialize` of both extensions are left out: they return a constant, read a field, or do nothing.
- The text the debugger's `show_help` and `show_*` functions print is left out. `Help` is the action returned for `h`/`help`.
- Vm.Chip8VM.Fetch, Vm.Chip8VM.Tick, Vm.Chip8VM.PushToStack and Vm.Chip8VM.PopFromStack require the index to be in range. In the Rust code an out-of-range index is a panic.
- Vm.Chip8VM.TickTimers: the beep at sound timer 1 is an empty comment in the source and has no effect in the model.
- Xo.PlayAudio computes the waveform but nothing plays it, as in the source, where the buffer is dropped.
- Panics are an explicit `Panicked` outcome. Writes made before the panic stay in the state (FX75/FX85 past 8, 5XY2/5XY3 past the end of memory), although a real process aborts.
- Dispatch across a list of extensions is modelled as the contract in src/extensions.rs. The loop that walks the extensions lives in src/main.rs, which is not part of this model.
- usize is taken as 64 bits for the length limit of `info memory`.
- The values of HI_RES_WIDTH, HI_RES_HEIGHT, FLAG_COUNT, XO_RES_WIDTH, XO_SCREEN_SIZE and LARGE_FONT_BASE_ADDR come from a configuration file that is not part of this model. The first five are the ones the machine's documentation gives (a 128x64 mode, an 8-byte flag bank, a 128-cell plane stride).
- LARGE_FONT_BASE_ADDR = 0x50 is an assumption that neither the source shown nor the documentation fixes: it is the address right after the 80-byte small font. The FX30 results (Xo.PlaneAndFontOpcodes and the FX30 arms of XoStep and SuperChipStep) hold for that value.
- The viewport is limited to 64x32 or 128x64, the only sizes the handlers write.

## Findings

| source | as written | input that shows it | evidently intended | confidence | as-written member | corrected member |
|---|---|---|---|---|---|---|
| src/vm.rs:63-74 | `reset` zeroes all of memory and does not copy the font back | any reset: afterwards address 0 holds 0 instead of the font byte 0xF0 | a reset machine is the same as a new one, font included | high, not executed | Vm.Chip8VM.Reset, Vm.ResetLosesFont | Vm.Chip8VM.ResetWithFont |
