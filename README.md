# CHIP-8 interpreter core in Dafny

This project models the core of a CHIP-8 interpreter written in Rust: the
fetch-decode-execute cycle over a 4096-byte RAM, sixteen 8-bit registers, a
16-bit index register, a 16-entry call stack, sixteen key flags, two timers
and a 64x32 monochrome framebuffer with XOR sprite drawing and collision
detection. The interpreter can be set to the "original" or "modern" reading
of the ambiguous instructions (8xy6, 8xyE, Fx55 and Fx65).

The model has two layers:

- `ChipSpec` gives the meaning of one cycle as a pure function,
  `ChipSpec.Step(state, profile, rnd)`. It returns either the next machine
  state or a `Fault`. `ChipLemmas` proves the instruction-level properties
  about it: skips, flags, CALL/RET, the key wait, BCD, the register dump and
  load, and the timers.
- The class `Chip.Chip` follows the Rust `Chip`. Its RAM and framebuffer are
  objects with arrays updated in place (`Ram.Ram`, `Framebuffer.Framebuffer`).
  `Chip.Chip.Cycle` is proved to change the object exactly as
  `ChipSpec.Step` says. Every loop of the source is a loop here, with its
  invariants: the sprite copy in `new_seed`, `load_rom`, the block loads,
  the Fx55/Fx65 loops and the two nested loops of `draw_sprite`. One
  deliberate difference: the collision flag of `draw_sprite`, and so VF
  after DRW, follows the corrected rule given under "## Findings" (raised
  when any lit pixel is turned off). The flag as the source computes it is
  modelled separately, as `Framebuffer.CollisionAsWritten`.

Fixed-width integers are `int` newtypes (`uint8`, `uint16`, `uint32`). An
overflow that Rust would trap is therefore an obligation, or, where the
input can cause it, an explicit fault. `u8::overflowing_add`, the `&`, `>>`
and `<<` operations, and the `% 256` wrap are written out as arithmetic
on those types.

Where a Rust panic can be reached by a program, the model returns a `Fault`
and leaves the machine unchanged. The cases are:

- an opcode no arm matches;
- RET on an empty stack, CALL on a full one;
- a fetch at the last byte of RAM;
- a sprite, BCD or register block that runs past the end of RAM;
- a key number or font digit of 16 or more;
- an `ADD I, Vx` that overflows 16 bits.

## Model

| member | source | states |
|---|---|---|
| Util.Zeroed | src/util.rs:31-51 | `new`/`zero`: a buffer of the given size whose every element is the element type's zero |
| Util.IsZero | src/util.rs:40-42 | `is_zero` holds exactly when every element is zero |
| Util.Clear | src/util.rs:55-57 | after `clear` the buffer equals a fresh zero buffer and `is_zero` holds |
| Util.Add | src/util.rs:17-29 | the sum buffer has the operands' size and element i is a[i] + b[i] for every i |
| Util.Slice | src/util.rs:60-73 | range indexing yields hi - lo elements, element k being s[lo + k] |
| Instr.New | src/instr.rs:12-22 | every word decodes; c, x, y, n are below 16; nn = 16y + n; nnn = 256x + nn; 4096c + nnn is the word itself, which is kept as `opcode` |
| Instr.Fields | src/instr.rs:15-19 | the class is the word's top nibble, `nn` its low byte and `n` its low nibble |
| Instr.DecodeEncode | src/instr.rs:12-22 | decoding a word built from four nibbles gives those nibbles back |
| Instr.EncodeDecode | src/instr.rs:12-22 | re-encoding the decoded nibbles gives the original word back |
| Regs.New | src/regs.rs:16-25 | all sixteen V registers, both timers, I, PC and SP start at 0 |
| Profile.Original | src/profile.rs:9-16 | the original preset sets both shift toggles and both store toggles |
| Profile.Modern | src/profile.rs:18-25 | the modern preset clears all four toggles |
| Profile.PresetsDisagree | src/profile.rs:9-25 | the two presets differ in every one of the four quirks |
| Ram.FromBeBytes | src/ram.rs:27-29 | `from_be_bytes` puts the first byte high: the word is 256 * hi + lo |
| Ram.WordRoundTrip | src/ram.rs:27-34 | splitting a word as `write_u16` does and joining as `read_u16` does gives the word back |
| Ram.BytesRoundTrip | src/ram.rs:27-34 | joining two bytes into a word and splitting it gives both bytes back |
| Ram.Stored | src/ram.rs:44-51 | the RAM image after a block write: block bytes at addr + k, every other byte as before |
| Ram.WordBytes | src/ram.rs:36-42 | the big-endian byte stream of a word sequence: two bytes per word, high byte first |
| Ram.PairedBytes | src/chip.rs:480-487 | words built from consecutive byte pairs stream back to those bytes, a trailing odd byte dropped |
| Ram.WordsReadBack | src/ram.rs:27-42 | after a block of words is stored big-endian, each word reads back from its own two bytes |
| Ram.Ram.constructor | src/ram.rs:11-15 | a new RAM reads 0 at every address below 4096 |
| Ram.Ram.WriteU8 | src/ram.rs:19-21 | only byte addr changes, and `read_u8(addr)` then returns the value; addr must be in RAM |
| Ram.Ram.ReadU16 | src/ram.rs:27-29 | the word is 256 * mem[addr] + mem[addr + 1]; both bytes must be in RAM |
| Ram.Ram.WriteU16 | src/ram.rs:31-34 | the high byte goes to addr and the low byte to addr + 1, nothing else changes, and `read_u16(addr)` returns the word |
| Ram.Ram.LoadBlockU16 | src/ram.rs:36-42 | word k is stored big-endian at addr + 2k, RAM outside the block is unchanged, and `read_u16(addr + 2k)` returns word k |
| Ram.Ram.LoadBlockU8 | src/ram.rs:44-51 | byte k is stored at addr + k, RAM outside the block is unchanged, and the result is addr + length |
| Framebuffer.Blank | src/framebuffer.rs:13-17 | the 64x32 frame with every pixel 0 |
| Framebuffer.Drawn | src/framebuffer.rs:40-74 | the frame after a draw is a well-formed frame (cells 0 or 1) |
| Framebuffer.DrawTwiceRestores | src/framebuffer.rs:63-70 | drawing the same sprite twice at the same place gives back the original frame |
| Framebuffer.DrawClips | src/framebuffer.rs:47-61 | cells above or left of the start, below the last sprite row or right of the eighth column are untouched: no wrap-around inside a sprite |
| Framebuffer.DrawOnBlank | src/framebuffer.rs:40-74 | on a blank frame nothing is erased and exactly the flipped cells end up lit |
| Framebuffer.DrawOnFull | src/framebuffer.rs:66-68 | on an all-lit frame any flipped pixel is a collision |
| Framebuffer.Framebuffer.constructor | src/framebuffer.rs:13-17 | a new framebuffer is blank |
| Framebuffer.Framebuffer.GetFrame | src/framebuffer.rs:23-25 | the snapshot is a well-formed frame holding the grid's cells |
| Framebuffer.Framebuffer.Clear | src/framebuffer.rs:19-21 | after `clear` the grid is blank |
| Framebuffer.Framebuffer.DrawSprite | src/framebuffer.rs:40-74 | the start wraps modulo 64 and 32; the new grid is `Drawn` of the old one (XOR of the set bits, rows clipped at the bottom, columns at the right); the result is true iff some lit pixel was turned off |
| Framebuffer.Framebuffer.DrawRow | src/framebuffer.rs:55-72 | one sprite row: its set bits flip the cells of that screen row up to the right edge, nothing else changes, and the flag is raised iff one of them was lit |
| Framebuffer.CollisionAsWritten | src/framebuffer.rs:40-74 | the flag as the source computes it is false when the draw flips no pixel |
| Framebuffer.RowsFlagQuiet | src/framebuffer.rs:47-73 | the row loop as written leaves the flag as it was when no remaining row flips a pixel |
| Framebuffer.ColsFlagQuiet | src/framebuffer.rs:55-72 | the column loop as written leaves the flag as it was when no remaining visible bit of the row is set |
| Framebuffer.CollisionAsWrittenSound | src/framebuffer.rs:40-74 | the flag the source computes is never a false alarm: when raised, some lit pixel was turned off |
| Framebuffer.RowsFlagSound | src/framebuffer.rs:47-73 | the row loop as written raises the flag only if it was raised already or a row erases a pixel |
| Framebuffer.ColsFlagSound | src/framebuffer.rs:55-72 | the column loop as written raises the flag only if it was raised already or the row erases a pixel |
| Framebuffer.CollisionAsWrittenOnFull | src/framebuffer.rs:40-74 | on an all-lit frame the flag the source computes is raised exactly when the draw flips a pixel |
| Framebuffer.RowsFlagFull | src/framebuffer.rs:47-73 | on an all-lit frame the row loop as written ends raised when a later row flips a pixel |
| Framebuffer.ColsFlagFull | src/framebuffer.rs:55-72 | on an all-lit frame the column loop as written ends raised when a later column flips a pixel |
| Framebuffer.CollisionMissed | src/framebuffer.rs:66-68 | the sprite row 0xC0 at (0, 0) over a frame with only (0, 0) lit erases a pixel, yet the flag as written ends false |
| ChipSpec.Sprite | src/chip.rs:46-143 | each digit sprite is five rows, taken from the font table |
| ChipSpec.Initial | src/chip.rs:145-164 | the font occupies RAM from address 0, the rest of RAM is 0, digit d's sprite is recorded at address 5d, and the registers, stack, keys and screen are cleared |
| ChipSpec.InitialMem | src/chip.rs:145-152 | a RAM image holding the font at the bottom and zeros above it is the initial RAM |
| ChipSpec.FontLoaded | src/chip.rs:149-152 | loading sprite i at address 5i after the sprites below i extends the font in RAM by that sprite and leaves the rest zero |
| ChipSpec.Step | src/chip.rs:182-189 | one cycle from a well-formed machine that completes gives a well-formed machine (stack pointer within the stack, 16 registers, 4096 bytes, 64x32 frame) |
| ChipSpec.Execute | src/chip.rs:189-462 | every arm of the dispatch keeps the machine well formed |
| ChipSpec.ExecSystem | src/chip.rs:190-201 | CLS and RET keep the machine well formed |
| ChipSpec.Call | src/chip.rs:209-215 | CALL keeps the stack pointer within the stack |
| ChipSpec.ExecAlu | src/chip.rs:253-322 | every 8xy_ instruction keeps the machine well formed |
| ChipSpec.Draw | src/chip.rs:351-367 | DRW keeps the machine well formed |
| ChipSpec.ExecKeys | src/chip.rs:369-383 | SKP and SKNP keep the machine well formed |
| ChipSpec.FirstPressed | src/chip.rs:395-398 | the result is the lowest pressed key, or none exactly when no key is pressed |
| ChipSpec.Bcd | src/chip.rs:429-432 | three decimal digits, each at most 9, with 100a + 10b + c equal to the value |
| ChipSpec.ExecMisc | src/chip.rs:385-459 | every Fx__ instruction keeps the machine well formed |
| ChipLemmas.FetchAdvances | src/chip.rs:183-187 | a cycle fetches the big-endian word at PC and executes it with PC already advanced by 2 |
| ChipLemmas.FetchPastEnd | src/chip.rs:183 | with PC on the last byte of RAM or past it, the fetch of the word is a fault |
| ChipLemmas.UnknownIffUndefined | src/chip.rs:189-461 | a cycle reports an unknown opcode exactly for the words no arm matches, naming the word |
| ChipLemmas.StraightLineAdvances | src/chip.rs:183-187 | every instruction other than a jump, call, return, skip or key wait ends at PC + 2 |
| ChipLemmas.JumpTargets | src/chip.rs:203-207 | JP nnn lands on nnn; JP V0, nnn lands on V0 + nnn; nothing else changes |
| ChipLemmas.SkipLands | src/chip.rs:217-239 | 3xnn, 4xnn, 5xy0 and 9xy0 end at PC + 4 exactly when their condition holds and at PC + 2 otherwise; nothing else changes |
| ChipLemmas.KeySkipLands | src/chip.rs:369-383 | SKP and SKNP fault exactly on a key number of 16 or more; otherwise they end at PC + 4 exactly when their condition holds |
| ChipLemmas.AddImmediateWraps | src/chip.rs:247-251 | 7xnn sets Vx to (Vx + nn) mod 256 and changes no other register, VF included |
| ChipLemmas.AddCarry | src/chip.rs:277-284 | 8xy4: VF = 1 iff Vx + Vy > 255, written after the sum, so (VF, Vx) hold the full sum; only Vx and VF change |
| ChipLemmas.SubBorrow | src/chip.rs:286-312 | 8xy5 and 8xy7: VF = 1 iff there is no borrow, written after the difference; the difference wraps modulo 256 |
| ChipLemmas.ShiftRight | src/chip.rs:295-303 | 8xy6 shifts Vy or Vx by the profile; VF gets bit 0 and Vx the rest; with x = F the final shift leaves VF = 0 |
| ChipLemmas.ShiftLeft | src/chip.rs:314-322 | 8xyE shifts Vy or Vx by the profile; VF gets bit 7 and Vx twice the value mod 256; with x = F VF ends as twice the bit |
| ChipLemmas.ShiftLeftStep | src/chip.rs:314-322 | 8xyE first puts the shifted value in Vx, then the bit shifted out in VF, then doubles Vx modulo 256 |
| ChipLemmas.ShiftIgnoresVy | src/chip.rs:295-322 | with the profile's copy switched off, changing Vy changes the result of a shift in Vy alone |
| ChipLemmas.RetPops | src/chip.rs:196-201 | RET faults exactly on an empty stack; otherwise SP drops by one, PC becomes the address it uncovers, and nothing else changes |
| ChipLemmas.CallPushes | src/chip.rs:209-215 | CALL faults exactly on a full stack; otherwise the address after the CALL is pushed, SP rises by one, PC becomes nnn, and nothing else changes |
| ChipLemmas.CallThenRet | src/chip.rs:196-215 | CALL followed by RET at its target returns to the word after the CALL with the original SP; RAM, keys and screen are untouched |
| ChipLemmas.WaitKeyBlocks | src/chip.rs:392-399 | Fx0A with no key pressed leaves the machine exactly as it was |
| ChipLemmas.WaitKeyTakesLowest | src/chip.rs:392-399 | Fx0A with keys pressed sets Vx to the lowest pressed key and moves PC on |
| ChipLemmas.Run | src/chip.rs:182-463 | a run of cycles that completes leaves a well-formed machine |
| ChipLemmas.WaitKeyRun | src/chip.rs:392-399 | with no key pressed, any number of cycles at Fx0A leave the machine as it was |
| ChipLemmas.BcdStores | src/chip.rs:426-435 | Fx33 writes three decimal digits spelling Vx at I, I + 1 and I + 2; no other byte and no register but PC changes |
| ChipLemmas.StoreRegsCopies | src/chip.rs:437-447 | Fx55 copies V0..Vx to I..I + x; RAM outside the block and the registers keep their values; I moves by x + 1 iff the profile says so |
| ChipLemmas.LoadRegsCopies | src/chip.rs:449-459 | Fx65 loads V0..Vx from I..I + x; registers above x and RAM keep their values; I moves by x + 1 iff the profile says so |
| ChipLemmas.StoreThenLoad | src/chip.rs:437-459 | Fx55 then Fx65 from the same I, with I kept in place, gives the registers back |
| ChipLemmas.FontLookup | src/chip.rs:420-424 | Fx29 sets I to the recorded address of digit Vx and changes nothing else; a digit of 16 or more is a fault |
| ChipLemmas.AddIndex | src/chip.rs:414-418 | Fx1E faults exactly when I + Vx exceeds 16 bits; otherwise I becomes I + Vx, even past the end of RAM, and only PC changes besides |
| ChipLemmas.BlockInRam | src/chip.rs:426-459 | Fx33 faults exactly when I + 2 is outside RAM, Fx55 and Fx65 exactly when I + x is |
| ChipLemmas.InitialSprites | src/chip.rs:145-152 | in the initial machine, the address recorded for digit d holds the five rows of d's sprite |
| ChipLemmas.TimersCountDown | src/chip.rs:465-474 | k timer ticks take each timer down by k, stopping at 0, and change no other register |
| ChipLemmas.SoundLasts | src/chip.rs:470-478 | `is_sound_on` holds for exactly as many ticks as the sound timer's starting value |
| ChipLemmas.DrawLands | src/chip.rs:351-367 | DRW faults exactly when the n sprite bytes from I run past the end of RAM; otherwise the frame becomes `Drawn` of those bytes at (Vx mod 64, Vy mod 32), VF is 1 iff a lit pixel was turned off, and only PC changes besides |
| ChipLemmas.DrawTwiceRestores | src/chip.rs:351-367 | executing the same DRW twice leaves the screen as it was |
| Chip.Chip.constructor | src/chip.rs:145-164 | the new machine is `ChipSpec.Initial()` |
| Chip.Chip.KeyPress | src/chip.rs:166-168 | only key k's flag changes, and it is then pressed |
| Chip.Chip.KeyUnpress | src/chip.rs:170-172 | only key k's flag changes, and it is then released |
| Chip.Chip.SetPc | src/chip.rs:178-180 | only PC changes |
| ChipSpec.Tick | src/chip.rs:465-474 | each timer above 0 drops by one, a timer at 0 stays at 0, and no other register changes |
| Chip.Chip.CycleTimers | src/chip.rs:465-474 | the registers become `Tick` of the old ones and nothing else changes |
| Chip.Chip.LoadRom | src/chip.rs:480-487 | the ROM's bytes, a trailing odd byte dropped, are stored in order from `start`; the rest of RAM is unchanged |
| Chip.Chip.GetFrame | src/chip.rs:489-491 | the frame returned is the machine's screen |
| Chip.Chip.Cycle | src/chip.rs:182-463 | the machine changes exactly as `ChipSpec.Step` says; on a fault it is left as before the fetch |
| Chip.Chip.Execute | src/chip.rs:189-462 | each arm changes the machine exactly as `ChipSpec.Execute` says |
| Chip.Chip.ExecSystem | src/chip.rs:190-201 | CLS and RET as `ChipSpec.ExecSystem` says |
| Chip.Chip.Call | src/chip.rs:209-215 | CALL as `ChipSpec.Call` says |
| Chip.Chip.Alu | src/chip.rs:253-322 | 8xy_ as `ChipSpec.ExecAlu` says |
| Chip.Chip.Arith | src/chip.rs:277-312 | 8xy4, 8xy5 and 8xy7 as `ChipSpec.ExecAlu` says |
| Chip.Chip.Shift | src/chip.rs:295-322 | 8xy6 and 8xyE as `ChipSpec.ExecAlu` says |
| Chip.Chip.Draw | src/chip.rs:351-367 | DRW as `ChipSpec.Draw` says |
| Chip.Chip.Keys | src/chip.rs:369-383 | SKP and SKNP as `ChipSpec.ExecKeys` says |
| Chip.Chip.FirstPressedKey | src/chip.rs:395 | the scan returns `ChipSpec.FirstPressed` of the key flags |
| Chip.Chip.Misc | src/chip.rs:385-459 | Fx__ as `ChipSpec.ExecMisc` says |
| Chip.Chip.ExecBcd | src/chip.rs:426-435 | Fx33 as `ChipSpec.ExecMisc` says |
| Chip.Chip.ExecStore | src/chip.rs:437-447 | Fx55 as `ChipSpec.ExecMisc` says |
| Chip.Chip.ExecLoad | src/chip.rs:449-459 | Fx65 as `ChipSpec.ExecMisc` says |
| Chip.Chip.StoreBcd | src/chip.rs:429-434 | RAM becomes the old RAM with `Bcd(v)` stored at I |
| Chip.Chip.StoreRegs | src/chip.rs:440-443 | RAM becomes the old RAM with V0..Vx stored at I |
| Chip.Chip.LoadRegs | src/chip.rs:452-455 | V0..Vx become the RAM bytes at I..I + x; the other registers keep their values |

## Left out

- `Chip::new` (src/chip.rs:36-43) draws a seed from the operating system, and `oorandom::Rand32` generates the Cxnn byte. Both are left out. The random byte is a parameter of `Step` and `Cycle`, and the constructor models `new_seed` without its seed.
- The `trace!`/`info!` logging and the test-only `print_screen` and `fill_frame_u8` are left out; they have no effect on the machine.
- src/ui.rs (window, audio, key mapping) and src/main.rs (command line, ROM file reading, frame pacing) are not part of this model. The ROM arrives as a byte sequence to `LoadRom`.
- Rust panics are not modelled as aborts. Each panic a program can reach is a `Fault` result that leaves the machine as it was before the fetch. So the partial writes a panicking Fx33 or Fx55 makes before it stops are not captured.
- Index and IndexMut of `util::Array` are Dafny's own indexing and array update. The bounds obligation stands for the index panic.
- Util.Add: the elements are unbounded integers. The overflow of the element type's `+` is not modelled.
- Chip.Chip.IsSoundOn, Chip.Chip.IsKeyPressed and Ram.Ram.ReadU8 have no contract of their own, because they only read a field. Their meaning is stated by `ChipLemmas.SoundLasts`, `Chip.Chip.KeyPress`/`KeyUnpress` and `Ram.Ram.WriteU8`.
- ChipSpec.Step, ChipSpec.Execute and the per-class `ChipSpec` functions only promise a well-formed result in their own contracts. What each instruction does, and when it faults, is stated by the `ChipLemmas` lemmas (for example `RetPops`, `CallPushes`, `DrawLands`, `AddIndex`, `BlockInRam`, `KeySkipLands`, `FontLookup`, `FetchPastEnd`) and, for the object, by the `Chip.Chip` methods' refinement of these functions.
- ChipSpec.Draw, Chip.Chip.Draw: VF after DRW follows the corrected collision rule of the "## Findings" row (1 when any lit pixel is turned off), not the source's last-flipped-pixel rule, and `ChipSpec.Step` and `Chip.Chip.Cycle` inherit this. On the input of that row the source leaves VF = 0 where the model sets VF = 1. The source's flag is `Framebuffer.CollisionAsWritten`, which agrees with the corrected one on an all-lit frame and is never raised without a collision.
- The shifts follow the code rather than the usual description that VF is written last. 8xy6 and 8xyE write VF before the final shift, and that shift reads Vx again. So with x = F, SHR leaves VF = 0 and SHL leaves VF = twice the bit shifted out.
- The pixel cells are `u32` in the source. The model keeps them as `uint32` values restricted to 0 and 1, which is what every write in the source produces.

## Findings

| source | as written | input that shows it | evidently intended | confidence | as-written member | corrected member |
|---|---|---|---|---|---|---|
| src/framebuffer.rs:66-68 | the collision flag is overwritten at every flipped pixel with whether that pixel was lit, so the last flipped pixel decides | sprite row 0xC0 drawn at (0, 0) on a frame where only pixel (0, 0) is lit: (0, 0) is turned off, then the unlit (0, 1) resets the flag to false | the flag is raised when any lit pixel is turned off during the draw | not executed | Framebuffer.CollisionMissed | Framebuffer.Framebuffer.DrawSprite, ChipSpec.Draw |
