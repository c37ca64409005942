# CHIP-8 interpreter core

A Dafny model of the execution core of a CHIP-8 interpreter written in Rust. It covers four parts of that core:

- **The instruction word.** A 16-bit word is split into the fields `op`, `nnn`, `n`, `x`, `y` and `kk`, and then classified into one of 34 instruction kinds.
- **The CPU.** It holds 4096 bytes of memory, sixteen 8-bit registers V0–VF, the program counter, a 16-slot return stack with its stack pointer, the index register I, two timers, a keypad and a 64×32 one-bit display with a redraw flag. It has a constructor that lays out the font and the program image, and a clock cycle that does fetch, then decode, then execute.
- **The opcode handlers.** They update the CPU in place:
  - call, return and jump;
  - the four conditional skips;
  - register loads, adds and bitwise operations;
  - add, subtract and shift with the VF carry, borrow and shift-out flags;
  - `LD I`, the XOR sprite draw with toroidal wrap and the collision flag;
  - the block register store and load, and the BCD store.
- **The frame hand-off.** It snapshots the display for the renderer and consumes the redraw flag.

The model is written in two layers:

- **Values.** `Semantics` gives every handler as a function on a `Machine` value (`Chip8.Machine`). It also gives the decode/execute cycle as `Semantics.Cycle`. A fatal condition of the original (a Rust panic) becomes a `Failed(fault)` outcome that leaves the state unchanged. `Properties` proves the promised laws about these functions.
- **The object.** `Cpu.Cpu` is a class with the original's fixed-size buffers as arrays and the scalar registers as mutable fields. Each handler in `Handlers` is a method that updates the object in place. Its contract says that the new state, read as a value by `Abs()`, is what the matching `Semantics` function gives. The draw handler keeps the original's nested row and bit loops, and the block copies keep their register loops. `Dispatch.RunCycle` is the clock cycle on the object. `Frame.New` is the frame hand-off.

Modules: `Words` (bytes and bitwise helpers), `Decoder` (field split and classification), `Chip8` (machine state, font, initial state, fetch), `Sprite` (the XOR draw on a grid), `Semantics`, `Properties`, `Cpu`, `Handlers`, `Dispatch`, `Frame`.

## Model

| member | source | states |
|---|---|---|
| Decoder.Split | src/chip8/cpu.rs:143-156 | every field lies within its width (op, x, y, n < 16, kk < 256, nnn < 4096); raw == op·0x1000 + nnn == op·0x1000 + x·0x100 + y·0x10 + n; kk == y·0x10 + n and nnn == x·0x100 + kk |
| Decoder.SplitJoin | src/chip8/instructions.rs:5-14 | splitting the word built from four nibbles gives those nibbles back |
| Decoder.SplitInjective | src/chip8/instructions.rs:3-14 | two words with the same op, x, y and n are the same word, so the split loses nothing |
| Decoder.Decode | src/chip8/cpu.rs:159-209 | a word that decodes to kind t matches t's opcode pattern |
| Decoder.DecodeComplete | src/chip8/cpu.rs:159-209 | conversely, every fetched word that matches t's pattern decodes to t |
| Decoder.FamilyZero | src/chip8/cpu.rs:161-165 | in family 0 exactly 0x00E0 and 0x00EE decode |
| Decoder.FamilyEight | src/chip8/cpu.rs:173-184 | family 8 decodes exactly for n in 0..7 and 0xE |
| Decoder.FamilyE | src/chip8/cpu.rs:190-194 | family E decodes exactly for kk 0x9E and 0xA1 |
| Decoder.FamilyF | src/chip8/cpu.rs:195-206 | family F decodes exactly for kk 07, 0A, 15, 18, 1E, 29, 33, 55 and 65 |
| Decoder.TopNibbleFamilies | src/chip8/cpu.rs:166-189 | families 1–7 and 9–D always decode, to a kind fixed by the top nibble alone |
| Chip8.InitialMemory | src/chip8/cpu.rs:38-66 | 4096 bytes: the font at 0, the program image at 0x200, zero everywhere else |
| Chip8.Initial | src/chip8/cpu.rs:37-84 | the state after construction: font and program in memory, every register, stack slot, key, timer, cell and I zero, pc 0x200, sp 0, no redraw pending |
| Chip8.Fetch | src/chip8/cpu.rs:143-156 | the big-endian word memory[pc]·0x100 + memory[pc+1], split into its fields; a read past address 4095 is a fault naming that address |
| Chip8.RangeFault | src/chip8/handlers.rs:201-210 | touching len bytes from base stays inside memory iff len is 0 or base + len ≤ 4096; otherwise it names the first address outside memory |
| Sprite.DrawToggles | src/chip8/handlers.rs:179-194 | after a draw a cell is toggled iff some set sprite bit lands on it, and is kept otherwise |
| Sprite.HitIff | src/chip8/handlers.rs:183-185 | a cell is hit iff a set bit of row `row`, column `col` has ((vx + col) mod 64, (vy + row) mod 32) equal to that cell |
| Sprite.CollidesIff | src/chip8/handlers.rs:187-190 | the collision flag is on iff some set sprite bit lands on a cell that was 1 |
| Sprite.DrawTwice | src/chip8/handlers.rs:191 | drawing the same sprite twice at the same place restores the grid |
| Sprite.RedrawCollides | src/chip8/handlers.rs:187-191 | the second draw collides iff some cell the sprite hits was 0 before the first |
| Sprite.StepCollides | src/chip8/handlers.rs:183-190 | one more bit sets the collision flag iff it was set already or this bit is set and lands on a lit cell |
| Sprite.DrawnStep | src/chip8/handlers.rs:183-191 | one more bit toggles exactly the cell it lands on, if it is set, and that cell still holds its original value |
| Sprite.CollisionWitness | src/chip8/handlers.rs:187-189 | a hit cell that was 1 is a witness of a collision |
| Semantics.Ret | src/chip8/handlers.rs:6-14 | pc becomes stack[sp] + 2; sp drops by one unless it is already 0; nothing else changes |
| Semantics.Jmp | src/chip8/handlers.rs:17-19 | pc becomes nnn exactly, with no +2; nothing else changes |
| Semantics.CallNnn | src/chip8/handlers.rs:22-26 | sp rises by one, the caller's pc is stored in the new top slot, pc becomes nnn; other slots and state are kept |
| Semantics.Skip | src/chip8/handlers.rs:29-35 | only pc changes: by 4 iff the comparison holds, by 2 iff it does not |
| Semantics.SeVxKk | src/chip8/handlers.rs:29-35 | skips iff Vx == kk |
| Semantics.SneVxKk | src/chip8/handlers.rs:38-44 | skips iff Vx != kk |
| Semantics.SeVxVy | src/chip8/handlers.rs:47-53 | skips iff Vx == Vy |
| Semantics.SneVxVy | src/chip8/handlers.rs:158-164 | skips iff Vx != Vy |
| Semantics.LdVxKk | src/chip8/handlers.rs:56-59 | Vx := kk, pc + 2, nothing else changes |
| Semantics.AddVxKk | src/chip8/handlers.rs:62-66 | Vx ≡ Vx + kk (mod 256); VF and every other register untouched; pc + 2 |
| Semantics.LdVxVy | src/chip8/handlers.rs:69-72 | Vx := Vy, pc + 2 |
| Semantics.OrVxVy | src/chip8/handlers.rs:75-78 | Vx := Vx OR Vy, pc + 2 |
| Semantics.AndVxVy | src/chip8/handlers.rs:81-84 | Vx := Vx AND Vy, pc + 2 |
| Semantics.XorVxVy | src/chip8/handlers.rs:87-90 | Vx := Vx XOR Vy, pc + 2 |
| Semantics.AddVxVy | src/chip8/handlers.rs:93-101 | VF is exactly 1 if the true sum exceeds 0xFF and 0 otherwise, also when x = F; when x ≠ F, Vx + 0x100·VF is the true sum; other registers kept |
| Semantics.SubVxVy | src/chip8/handlers.rs:104-115 | VF is exactly 1 if old Vx > old Vy (strict) and 0 otherwise, so equal operands give 0; when x ≠ F, Vx ≡ Vx − Vy (mod 256), and for unequal operands Vx − 0x100·(1 − VF) is the true difference |
| Semantics.SubnVxVy | src/chip8/handlers.rs:131-142 | VF is exactly 1 if old Vx > old Vy and 0 otherwise, also when x = F; when x ≠ F, Vx − 0x100·VF is the true difference Vy − Vx |
| Semantics.ShrVxVy | src/chip8/handlers.rs:118-128 | when x ≠ F, 2·Vx + VF is the old Vx with VF < 2; when x = F the shifted value wins; Vy ignored |
| Semantics.ShlVxVy | src/chip8/handlers.rs:145-155 | when x ≠ F, Vx + 0x100·VF is twice the old Vx with VF < 2; when x = F the shifted value wins |
| Semantics.LdINnn | src/chip8/handlers.rs:167-170 | I := nnn, pc + 2, nothing else changes |
| Semantics.SpriteRows | src/chip8/handlers.rs:179-180 | the n sprite rows are memory[I..I+n] |
| Semantics.DrwVxVyN | src/chip8/handlers.rs:174-198 | the display becomes the XOR draw of memory[I..I+n] at (Vx, Vy); VF is 1 if some set bit lands on a lit cell and 0 otherwise; redraw flag set, pc + 2; only VF among the registers changes |
| Semantics.LdIVx | src/chip8/handlers.rs:201-210 | memory[I+k] = Vk for k ≤ x; memory outside [I, I+x] and I itself unchanged; pc + 2 |
| Semantics.LdVxI | src/chip8/handlers.rs:213-222 | Vk = memory[I+k] for k ≤ x; registers above x unchanged; pc + 2 |
| Semantics.Digits | src/chip8/handlers.rs:225-230 | three decimal digits, each ≤ 9 (the first ≤ 2), with 100·d0 + 10·d1 + d2 equal to the byte |
| Semantics.LdBVx | src/chip8/handlers.rs:224-238 | memory[I..I+3] holds the decimal digits of Vx; the rest of memory unchanged; pc + 2 |
| Semantics.PcFault | src/chip8/handlers.rs:13 | advancing pc by k faults iff pc + k leaves 16 bits |
| Semantics.Check | src/chip8/cpu.rs:212-219 | a kind with no handler always yields the unhandled fault; a handled kind never does |
| Semantics.Apply | src/chip8/cpu.rs:212-214 | running the handler of a kind that passed its checks gives a well-formed state |
| Semantics.Execute | src/chip8/cpu.rs:212-220 | a failure leaves the state unchanged; a kind with no handler is reported, not skipped; a call fails with stack overflow iff sp is already 15; DRW (n bytes), LD [I] Vx and LD Vx [I] (x + 1 bytes) and LD B Vx (3 bytes) fail with the memory fault `RangeFault` names exactly when their bytes from I pass address 4095 |
| Semantics.Cycle | src/chip8/cpu.rs:123-140 | a failure leaves the state unchanged; a decode failure names the pc and a word that indeed does not decode |
| Properties.CallWord | tests/cpu_test.rs:56-67 | the word 0x2nnn is a CALL to nnn |
| Properties.Calls | src/chip8/handlers.rs:22-26 | a chain of calls pushes one slot per call: the caller's pc first, then each call target in turn; sp rises by the chain's length; lower slots kept |
| Properties.Returns | src/chip8/handlers.rs:6-14 | k returns drop sp by k and resume after the k-th saved address |
| Properties.CallThenRet | tests/cpu_test.rs:22-34 | a call followed by a return resumes at the call site + 2 with sp restored |
| Properties.CallsThenReturns | src/chip8/handlers.rs:6-26 | any chain of calls followed by as many returns comes back to the first call site + 2 with sp restored |
| Properties.CallDepth | src/chip8/handlers.rs:22-24 | from an empty stack, 15 nested calls fit and the 16th is a stack overflow that changes nothing |
| Properties.RetAtEmptyStack | src/chip8/handlers.rs:8-13 | a return at sp 0 does not fail: it reads slot 0, adds 2 and keeps sp at 0 |
| Properties.StoreThenLoad | src/chip8/handlers.rs:201-222 | storing V0..Vx then loading them back restores V0..Vx, whatever the registers became in between, and keeps the ones above x |
| Properties.DrawTwice | src/chip8/handlers.rs:174-198 | executing the same DRW twice restores the display, and the second draw sets VF to 1 iff the sprite hits some cell that was 0 before the first, else 0 |
| Properties.DecodeFailureStops | src/chip8/cpu.rs:128-134 | a word that does not decode ends the cycle before execute with the state unchanged |
| Properties.UnhandledStops | src/chip8/cpu.rs:213-218 | a decoded kind with no handler ends the cycle with the state unchanged |
| Properties.BcdExamples | tests/cpu_test.rs:593-638 | 0xAE gives 1, 7, 4 and 0xFF gives 2, 5, 5 |
| Properties.CycleRuns | src/chip8/cpu.rs:123-140 | a cycle at a word that decodes and passes its checks runs that kind's handler |
| Properties.LoadImmediateStep | tests/cpu_test.rs:155-168 | a cycle at LD Vx, kk sets Vx to kk and advances pc by 2 |
| Properties.LoadPairRuns | tests/cpu_test.rs:289-308 | two cycles of LD V1, a; LD V2, b set V1 and V2 and leave pc at 0x204 |
| Properties.InitialLoaded | src/chip8/cpu.rs:60-71 | the constructed state holds the program at 0x200 with pc 0x200 and sp 0 |
| Properties.AddCarryProgram | tests/cpu_test.rs:289-308 | 0xFE + 0xAB leaves 0xA9 in V2, VF = 1 and pc 0x206 |
| Properties.AddCarryStep | tests/cpu_test.rs:289-308 | the ADD cycle of that program |
| Properties.CallRetProgram | tests/cpu_test.rs:22-34 | CALL 0x204; RET lands on 0x202 with sp 0 |
| Properties.SubBorrowProgram | tests/cpu_test.rs:333-352 | 0xAC − 0xDF leaves 0xCD in V1 and VF = 0 |
| Properties.SubBorrowStep | tests/cpu_test.rs:333-352 | the SUB cycle of that program |
| Properties.SubnBorrowProgram | tests/cpu_test.rs:397-416 | SUBN with V2 = 0x3C and V1 = 0x1A leaves 0xDE in V2 and VF = 1 |
| Properties.SubnBorrowStep | tests/cpu_test.rs:397-416 | the SUBN cycle of that program |
| Properties.ShrProgram | tests/cpu_test.rs:355-372 | SHR of 0xAD leaves 0x56 and VF = 1 |
| Properties.ShrStep | tests/cpu_test.rs:355-372 | the SHR cycle of that program |
| Properties.ShlProgram | tests/cpu_test.rs:419-436 | SHL of 0xCA leaves 0x94 and VF = 1 |
| Properties.ShlStep | tests/cpu_test.rs:419-436 | the SHL cycle of that program |
| Properties.BcdSetup | tests/cpu_test.rs:593-614 | LD I, 0x500; LD V5, 0xAE set I and V5 and leave memory unchanged |
| Properties.BcdStep | tests/cpu_test.rs:593-614 | the LD B, V5 cycle writes 1, 7, 4 at 0x500 |
| Properties.BcdProgram | tests/cpu_test.rs:593-614 | the whole BCD program writes 1, 7, 4 at 0x500 and leaves pc at 0x206 |
| Properties.LoadStep | tests/cpu_test.rs:571-590 | the LD V3, [I] cycle loads the four program bytes into V0..V3 |
| Properties.LoadProgram | tests/cpu_test.rs:571-590 | LD I, 0x200; LD V3, [I] puts A2 00 F3 65 into V0..V3 with pc 0x204 |
| Cpu.GridExt | src/chip8/cpu.rs:29 | representation lemma, not an operation of the original: the display array read as a grid of sequences equals any grid that agrees with it cell by cell |
| Cpu.Blit | src/chip8/cpu.rs:60-66 | copies a slice into the buffer at an offset and keeps every other byte |
| Cpu.LoadMemory | src/chip8/cpu.rs:38-66 | the freshly filled memory buffer is exactly the initial memory image |
| Cpu.Cpu.constructor | src/chip8/cpu.rs:37-120 | the new object reads as the initial state, with fresh buffers |
| Cpu.Cpu.Fetch | src/chip8/cpu.rs:143-156 | returns the fetched word (or the out-of-range fault) and changes nothing |
| Handlers.Ret | src/chip8/handlers.rs:6-14 | updates the object exactly as Semantics.Ret |
| Handlers.Jmp | src/chip8/handlers.rs:17-19 | updates the object exactly as Semantics.Jmp |
| Handlers.CallNnn | src/chip8/handlers.rs:22-26 | updates the object exactly as Semantics.CallNnn |
| Handlers.SeVxKk | src/chip8/handlers.rs:29-35 | updates the object exactly as Semantics.SeVxKk |
| Handlers.SneVxKk | src/chip8/handlers.rs:38-44 | updates the object exactly as Semantics.SneVxKk |
| Handlers.SeVxVy | src/chip8/handlers.rs:47-53 | updates the object exactly as Semantics.SeVxVy |
| Handlers.SneVxVy | src/chip8/handlers.rs:158-164 | updates the object exactly as Semantics.SneVxVy |
| Handlers.LdVxKk | src/chip8/handlers.rs:56-59 | updates the object exactly as Semantics.LdVxKk |
| Handlers.AddVxKk | src/chip8/handlers.rs:62-66 | updates the object exactly as Semantics.AddVxKk |
| Handlers.LdVxVy | src/chip8/handlers.rs:69-72 | updates the object exactly as Semantics.LdVxVy |
| Handlers.OrVxVy | src/chip8/handlers.rs:75-78 | updates the object exactly as Semantics.OrVxVy |
| Handlers.AndVxVy | src/chip8/handlers.rs:81-84 | updates the object exactly as Semantics.AndVxVy |
| Handlers.XorVxVy | src/chip8/handlers.rs:87-90 | updates the object exactly as Semantics.XorVxVy |
| Handlers.AddVxVy | src/chip8/handlers.rs:93-101 | writes Vx, then VF, exactly as Semantics.AddVxVy |
| Handlers.SubVxVy | src/chip8/handlers.rs:104-115 | writes Vx, then VF, exactly as Semantics.SubVxVy |
| Handlers.ShrVxVy | src/chip8/handlers.rs:118-128 | writes VF, then Vx, exactly as Semantics.ShrVxVy |
| Handlers.SubnVxVy | src/chip8/handlers.rs:131-142 | writes Vx, then VF, exactly as Semantics.SubnVxVy |
| Handlers.ShlVxVy | src/chip8/handlers.rs:145-155 | writes VF, then Vx, exactly as Semantics.ShlVxVy |
| Handlers.LdINnn | src/chip8/handlers.rs:167-170 | updates the object exactly as Semantics.LdINnn |
| Handlers.DrwVxVyN | src/chip8/handlers.rs:174-198 | the nested row and bit loops leave the object exactly as Semantics.DrwVxVyN |
| Handlers.DrawRow | src/chip8/handlers.rs:181-193 | after the eight bits of one row, the display and VF are those of the draw up to that row |
| Handlers.DrawBit | src/chip8/handlers.rs:183-192 | one bit toggles its target cell when set and raises VF on a lit cell, as the draw up to that bit prescribes |
| Handlers.LdIVx | src/chip8/handlers.rs:201-210 | the register loop leaves the object exactly as Semantics.LdIVx |
| Handlers.LdVxI | src/chip8/handlers.rs:213-222 | the register loop leaves the object exactly as Semantics.LdVxI |
| Handlers.LdBVx | src/chip8/handlers.rs:224-238 | updates the object exactly as Semantics.LdBVx |
| Dispatch.Execute | src/chip8/cpu.rs:212-220 | dispatches to the handler method and ends in the state and outcome Semantics.Execute gives |
| Dispatch.RunCycle | src/chip8/cpu.rs:123-140 | fetch, decode and execute on the object end in the state and outcome Semantics.Cycle gives |
| Frame.Snapshot | src/lib/state.rs:9-23 | the snapshot carries the caller's flag and the display cell for cell; the caller's flag is left false |
| Frame.SnapshotTwice | src/lib/state.rs:18-20 | a second hand-off right after the first reports no redraw |
| Frame.New | src/lib/state.rs:9-23 | returns the snapshot of the object's flag and display and clears the flag; nothing else changes |
| Frame.NewTwice | src/lib/state.rs:9-23 | two hand-offs in a row: the first carries the old flag, the second reports no redraw, and both carry the same display |

## Left out

- The SDL window, renderer, event loop, frame pacing and ROM file reading (src/main.rs, src/bin/main.rs, src/lib/gui/) are I/O and are not modelled. The superseded stub src/chip8.rs and the wrapper src/lib/lib.rs are not part of this model.
- Dispatch goes through a total match over the instruction kinds, not through the `HashMap` built in `Cpu::new`. That map registers only 8 handlers (src/chip8/cpu.rs:85-118), yet the tests run the other handlers through `run_cycle`. Every kind that has a handler in src/chip8/handlers.rs is dispatched.
- CLS, JP V0, RND, SKP, SKNP, LD Vx DT, LD Vx K, LD DT Vx, LD ST Vx, ADD I Vx and LD F Vx have no handler. They end the cycle with an `Unhandled` fault. RND would need randomness, and the key and timer kinds need the keypad and the clock.
- The timers are never decremented: the timer step of the cycle (src/chip8/cpu.rs:139) is empty in the original too.
- Panics are modelled as a `Failed` outcome that leaves the state unchanged. This applies to decode failure, a missing handler, stack overflow, a memory index past 4095 and pc leaving 16 bits. The original's draw and block copy panic part-way, after some writes; the model does not capture those partial writes.
- The 16-bit `pc += 2` / `pc += 4` overflow is treated as a fault (debug-build arithmetic). A release build would wrap it instead.
- The display is 64 columns of 32 cells indexed [x][y], as the handlers and src/lib/state.rs:5 use it. src/chip8/cpu.rs:29 declares the transposed shape, under which the draw would index out of range for x ≥ 32.
- SUBN keeps the code's flag, VF = 1 iff Vx > Vy (src/chip8/handlers.rs:139). This is the opposite of section 3.1 of Cowgod's Chip-8 Technical Reference; the tests pin the code's version.
- Cpu.Cpu.constructor: requires that the program fits in memory (at most 3584 bytes). Otherwise the original panics when it slices `memory[rom_start..rom_end]` (src/chip8/cpu.rs:66), before the copy.
- The test-program lemmas (`Properties.*Program`) are stated for any state `Loaded` with the program at 0x200 and pc at 0x200, not only for the constructed one. `Properties.InitialLoaded` shows the constructed state is such a state.
- Semantics.Check: a conditional skip faults when pc + 4 leaves 16 bits even if the skip is not taken, where the original then advances by 2 only (src/chip8/handlers.rs:29-53). No cycle reaches this, because a fetch needs pc ≤ 4094.
