# CHIP-8 interpreter core in Dafny

This project models the machine-state core of a small CHIP-8 interpreter
written in C (`CHIP-8/src/chip8.c` over the `Chip8` struct of
`CHIP-8/src/chip8.h`) and proves what its four operations do:

- `chip8_init` zeroes every field except pc, which it sets to the program
  origin 0x200, and draw_flag, which it sets to 1; it then copies the 80-byte
  hexadecimal font to address 0;
- `chip8_load_rom` refuses a ROM larger than the 3584 bytes between 0x200 and
  the end of memory, and otherwise copies it to 0x200;
- `chip8_cycle` fetches the big-endian word at pc and executes it. Only 00E0
  (clear screen), 00EE (a stub that only advances pc), 1NNN (jump), 6XNN
  (load immediate) and 8XY? (add with carry, whatever the low nibble) do
  anything; every other word only advances pc;
- `chip8_update_timers` counts each non-zero timer down by one.

The project has four files:

- `chip8_spec.dfy` (module `Chip8Spec`) holds the machine as a value
  (`Machine`, one component per struct member) and each operation as a pure
  function over it: `Reset`, `LoadRomMemory`, `Step` (by way of `Decode` and
  `Execute`), `Steps` and `Tick`.
- `chip8.dfy` (module `Interpreter`) is the C code's own shape. Class `Chip8`
  holds the struct's fixed arrays and scalar fields, and its methods update
  them in place. Each method is proved to move the object's `State()` exactly
  as the matching function of `Chip8Spec` says.
- `properties.dfy` (module `Chip8Properties`) proves what the source
  promises about those functions:
  - the state after reset;
  - the ROM-loading outcomes;
  - the fetch round trip;
  - decoding as the inverse of an assembler;
  - the effect of each opcode family, and the fields a cycle never touches;
  - the timer countdown.
- `scenarios.dfy` (module `Chip8Scenarios`) proves what the repository's two
  test programs do on the model. The demo ROM of `create_rom.c`, which `main.c` also
  pokes into memory, loops forever with V1 = 5 and VF = 0. The beep test of
  `periodic_sound.c` fetches back word for word, and its first five cycles
  are traced.

The C code combines bytes with shifts and masks on `uint8_t` and `uint16_t`.
The model writes these as integer arithmetic, which on those non-negative
values is the same thing:

| C | model |
|---|---|
| `hi << 8 \| lo` | `hi * 0x100 + lo` |
| `op & 0x0FFF` | `op % 0x1000` |
| `(op & 0x0F00) >> 8` | `op / 0x100 % 0x10` |

Register and memory cells are `Byte` (0..255) and pc and I are `Word`
(0..65535). `pc += 2` is written with its 16-bit wrap-around (`NextPc`).

## Model

| member | source | states |
|---|---|---|
| Interpreter.Chip8.constructor | CHIP-8/src/chip8.h:13-40 | storage for one machine: memory of 4096 bytes, 16 registers, a 16-slot stack, 2048 display cells and 16 keys, in separate arrays |
| Interpreter.Chip8.Init | CHIP-8/src/chip8.c:27-64 | whatever the machine held, afterwards its whole state is `Reset()` (see `ResetState` for what that is) |
| Interpreter.Fill | CHIP-8/src/chip8.c:35-54 | `memset(a, v, sizeof a)`: every element of the array becomes `v` |
| Interpreter.CopyFont | CHIP-8/src/chip8.c:62-64 | the font loop turns cleared memory into the font at addresses 0-79 followed by zeros |
| Chip8Spec.Reset | CHIP-8/src/chip8.c:27-64 | the struct as chip8_init leaves it; its contract states that every array has its declared size, and `ResetState` states each field's value |
| Chip8Properties.ResetState | CHIP-8/src/chip8.c:35-64 | after reset: memory[0..80) is FONTSET and memory[80..4096) is zero; V, stack, display and keys are zero; I, sp, both timers, key_wait and key_reg are 0; pc is 0x200; draw_flag is 1; the display is binary and the first fetch is in bounds |
| Interpreter.Chip8.LoadRom | CHIP-8/src/chip8.c:91-118 | memory becomes `LoadRomMemory(old memory, rom, got)`; the result is true exactly when the ROM fits and the read delivered all of it |
| Chip8Spec.LoadRomMemory | CHIP-8/src/chip8.c:91-103 | a ROM over 3584 bytes leaves memory unchanged; otherwise the bytes read sit at 0x200 + k and every other address is unchanged |
| Chip8Spec.LoadRomSucceeds | CHIP-8/src/chip8.c:92-118 | the value chip8_load_rom returns: 1 exactly when the file fits in 3584 bytes and the read delivers all of it; `LoadRomOutcome` and `Interpreter.Chip8.LoadRom` tie it to the memory outcome |
| Chip8Properties.LoadRomOutcome | CHIP-8/src/chip8.c:91-118 | an oversized ROM fails with memory unchanged; a successful load has memory[0x200..0x200+L) equal to the ROM and both other parts unchanged |
| Chip8Spec.FetchWord | CHIP-8/src/chip8.c:127 | the fetched word's high byte is memory[pc] and its low byte memory[pc+1] |
| Chip8Spec.Opcode | CHIP-8/src/chip8.c:127 | the word fetched at pc: its high byte is memory[pc] and its low byte memory[pc + 1] |
| Interpreter.Chip8.Fetch | CHIP-8/src/chip8.c:127 | the word read is big-endian: high byte memory[pc], low byte memory[pc+1]; it is `Opcode(State())` |
| Chip8Properties.WordRoundTrip | CHIP-8/periodic_sound.c:47-49 | a word written as `w >> 8` then `w & 0xFF` is fetched back as `w` |
| Chip8Properties.FetchWordInjective | CHIP-8/src/chip8.c:127 | two byte pairs fetch the same word exactly when they are equal |
| Chip8Spec.Decode | CHIP-8/src/chip8.c:134-190 | the dispatch: 00E0 is clear screen, 00EE is return, every other 0NNN is a system word, family 1 is jump, family 6 is load, family 8 is add, families 2-5, 7 and 9-F are unimplemented; each holds in both directions |
| Chip8Properties.DecodeEncode | CHIP-8/src/chip8.c:134-190 | decoding an assembled instruction gives back that instruction |
| Chip8Properties.EncodeDecode | CHIP-8/src/chip8.c:134-190 | re-assembling a decoded word gives back the word, except 8XY? which comes back as 8XY4 |
| Chip8Properties.AluSelectorIgnored | CHIP-8/src/chip8.c:174-185 | an 8XY? word decodes the same whatever its low nibble |
| Chip8Spec.NextPc | CHIP-8/src/chip8.c:143 | `pc += 2` on the uint16_t pc; `NextPcWraps` states the wrap-around and `AdvancePc` that it never happens on a pc a fetch can use |
| Chip8Spec.AddWithCarry | CHIP-8/src/chip8.c:180-182 | the registers after the 8XY? case: it keeps 16 registers; `StepAdd` states VX, VF and the untouched registers |
| Chip8Spec.Execute | CHIP-8/src/chip8.c:134-190 | the effect of one decoded instruction: it keeps every array at its declared size; the `Step*` lemmas state each case's effect and `StepFrame` what no case touches |
| Chip8Spec.Step | CHIP-8/src/chip8.c:122-191 | one cycle keeps every array at its declared size |
| Interpreter.Chip8.Cycle | CHIP-8/src/chip8.c:122-191 | the object's new state is `Step` of its old state |
| Chip8Properties.AdvancePc | CHIP-8/src/chip8.c:143 | on any pc a fetch can use, the 16-bit `pc += 2` does not wrap |
| Chip8Properties.NextPcWraps | CHIP-8/src/chip8.c:143 | `pc += 2` adds two below 0xFFFE and wraps modulo 65536 from 0xFFFE on, as a uint16_t does |
| Chip8Properties.StepClearScreen | CHIP-8/src/chip8.c:138-144 | 00E0 sets every display cell to 0, sets draw_flag to 1, advances pc by 2 and changes nothing else |
| Chip8Properties.StepSystem | CHIP-8/src/chip8.c:145-153 | 00EE and every other 0NNN but 00E0 only advance pc by 2 |
| Chip8Properties.StepJump | CHIP-8/src/chip8.c:156-162 | 1NNN sets pc to NNN, with no +2, and changes nothing else |
| Chip8Properties.StepLoadImmediate | CHIP-8/src/chip8.c:164-172 | 6XNN sets VX to NN, advances pc by 2 and changes nothing else |
| Chip8Properties.StepAdd | CHIP-8/src/chip8.c:174-185 | 8XY? sets VX to (VX + VY) mod 256 of the old values; for X other than F, VF becomes the carry; for X = F, VF ends as the truncated sum; other registers keep their values; pc advances by 2; no other field changes |
| Chip8Properties.StepUnimplemented | CHIP-8/src/chip8.c:187-190 | a word of families 2-5, 7 or 9-F only advances pc by 2 |
| Chip8Properties.StepFrame | CHIP-8/src/chip8.c:122-191 | a cycle never changes memory, I, the stack, sp, the timers or the key state; the display is kept or blanked, stays 0/1, and a blanked display comes with draw_flag = 1 |
| Chip8Spec.Steps | CHIP-8/src/main.c:48-50 | any number of cycles keeps every array at its declared size |
| Chip8Properties.StepsFrame | CHIP-8/src/main.c:48-50 | over any number of cycles memory, I, the stack, sp, the timers and the keys keep their values, and the display stays binary |
| Chip8Properties.StepsOnce | CHIP-8/src/main.c:48-50 | a run of n > 0 cycles from a machine that can fetch is one cycle followed by n - 1 |
| Chip8Properties.StepsAdd | CHIP-8/src/main.c:48-50 | running a cycles and then b cycles is running a + b cycles |
| Chip8Properties.StepsHalted | CHIP-8/src/chip8.c:127 | a machine whose pc + 1 lies past memory does not run |
| Chip8Spec.Tick | CHIP-8/src/chip8.c:195-206 | a positive timer drops by exactly one, a zero timer stays zero, and every other field is unchanged |
| Chip8Spec.Ticks | CHIP-8/src/chip8.c:195-206 | n calls of chip8_update_timers never raise a timer and change no other field; `TicksCountDown` gives the exact values |
| Interpreter.Chip8.UpdateTimers | CHIP-8/src/chip8.c:195-206 | the object's new state is `Tick` of its old state: each positive timer drops by one, a zero timer stays zero, nothing else changes |
| Chip8Properties.TicksCountDown | CHIP-8/src/chip8.c:195-206 | after n ticks each timer is down by n, or 0 if it held n or less, and no other field has changed |
| Chip8Properties.SoundGate | CHIP-8/src/chip8.c:200-205 | the sound timer is still positive after n ticks exactly when it held more than n |
| Chip8Scenarios.Boot | CHIP-8/src/chip8.c:100-103 | after reset and a complete load, pc is 0x200, the first fetch is in bounds and the ROM bytes sit at 0x200 onward |
| Chip8Scenarios.DemoClear | CHIP-8/create_rom.c:10 | the demo's first cycle, 00E0 at 0x200, blanks the display and moves to 0x202 |
| Chip8Scenarios.DemoLoads | CHIP-8/create_rom.c:11-12 | the next two cycles set V1 = 2 and then V2 = 3 and move to 0x206 |
| Chip8Scenarios.DemoAdd | CHIP-8/create_rom.c:13 | the fourth cycle, 8124, adds V2 to V1 with carry and moves to 0x208 |
| Chip8Scenarios.DemoJump | CHIP-8/create_rom.c:14 | the fifth cycle, 1200, jumps back to 0x200 and changes nothing else |
| Chip8Scenarios.DemoPass | CHIP-8/create_rom.c:9-15 | a pass of five cycles from 0x200: the registers after four, pc at 0x208, and the machine after five |
| Chip8Scenarios.DemoSum | CHIP-8/src/main.c:68 | with V1 = 2 and V2 = 3 the add leaves V1 = 5, V2 = 3 and VF = 0 |
| Chip8Scenarios.DemoFirstPass | CHIP-8/src/main.c:45-68 | from a reset machine holding the demo: after four cycles V1 = 5, V2 = 3, VF = 0 and pc = 0x208; the fifth cycle returns pc to 0x200 |
| Chip8Scenarios.DemoLoopIsFixed | CHIP-8/create_rom.c:14 | a pass starting from the loop state ends in the loop state |
| Chip8Scenarios.DemoPasses | CHIP-8/create_rom.c:9-15 | after every 5n + 5 cycles the demo is back in its loop state |
| Chip8Scenarios.DemoNextPass | CHIP-8/create_rom.c:14 | a run in the loop state is in the loop state again five cycles later |
| Chip8Scenarios.DemoLoopsForever | CHIP-8/create_rom.c:14 | after every pass of the endless loop pc is 0x200, V1 = 5 and VF = 0 |
| Chip8Scenarios.BootDemo | CHIP-8/src/main.c:81-90 | reset followed by loading the demo bytes gives a machine the demo lemmas apply to |
| Chip8Scenarios.EncodeWords | CHIP-8/periodic_sound.c:47-50 | a ROM written word by word has two bytes per word |
| Chip8Scenarios.EncodeWordsAt | CHIP-8/periodic_sound.c:47-50 | word j is written at offsets 2j (high byte) and 2j + 1 (low byte) |
| Chip8Scenarios.LoadedWordsFetchBack | CHIP-8/periodic_sound.c:47-50 | a ROM written word by word and then loaded fetches back every word unchanged at 0x200 + 2j |
| Chip8Scenarios.OpcodeAt | CHIP-8/src/chip8.c:127 | with pc at the j-th slot of a memory holding the words, the fetched opcode is word j |
| Chip8Scenarios.BeepTestLoad | CHIP-8/periodic_sound.c:12-14 | each of the beep test's first three words, 6jNN at slot j, sets Vj to its low byte, advances pc by 2 and changes nothing else |
| Chip8Scenarios.BeepTestLoads | CHIP-8/periodic_sound.c:12-14 | the beep test's first three cycles set V0 = 10, V1 = 15 and V2 = 0 and move to 0x206 |
| Chip8Scenarios.BeepTestSkipFallsThrough | CHIP-8/periodic_sound.c:17-18 | the skip 3200 is not implemented, so it only advances pc; the jump 1210 then reaches 0x210 |
| Chip8Scenarios.BeepTestFirstCycles | CHIP-8/periodic_sound.c:11-18 | after five cycles V0 = 10, V1 = 15, V2 = 0 and pc = 0x210 |
| Chip8Scenarios.BootBeepTest | CHIP-8/periodic_sound.c:47-50 | reset followed by loading the beep test gives a machine holding its words, with pc at 0x200 |

## Left out

- Console output is not modelled. That covers the per-opcode trace, the load
  and init messages and the "BEEP" line in `chip8_update_timers`; none of it
  changes the machine.
- The null-pointer checks of the three operations are not modelled. Dafny
  references are never null.
- File handling in `chip8_load_rom` is not modelled. The file is given as a
  byte sequence `rom`, and the read as the number `got <= |rom|` of bytes it
  delivers.
- Interpreter.Chip8.LoadRom: does not model a file that cannot be opened.
  That case returns 0 without touching memory, and has no counterpart when
  the file is a byte sequence.
- Interpreter.Chip8.LoadRom: does not model a failing `ftell`, and the source
  mishandles that case. `ftell` then returns -1 (on a pipe, for example).
  The size check at CHIP-8/src/chip8.c:92 lets -1 through, because -1 is
  not larger than 3584. `fread` at chip8.c:100-103 then receives
  `(size_t)-1` as its count, so it copies the whole stream to memory from
  0x200 with no bound. A stream longer than 3584 bytes is written past the
  end of `memory` into the struct fields that follow it. Only afterwards
  does the byte count check at chip8.c:106 return 0. The model always has a
  known length, so it never takes this path.
- Interpreter.Chip8.Fetch: requires pc + 1 < 4096. A fetch past the end of
  memory reads outside the array, which C leaves undefined.
- Interpreter.Chip8.Cycle: requires the same bound, for the same reason.
- Chip8Spec.Steps: a run stops at the first cycle whose fetch would leave
  memory instead of going on, because C leaves that cycle undefined.
- The `memset` calls are modelled as simultaneous assignment to every
  element. The order in which C writes the bytes is not observable.
- key, key_wait and key_reg are modelled only through their reset values; no
  operation reads or writes them afterwards.
- `main.c`, `create_rom.c` and `periodic_sound.c` are drivers and ROM
  writers. Their argument handling, printing and file writing are not
  modelled; only their programs are used, as the scenarios above.
- Instructions the code does not implement are modelled as the code has them
  (only pc advances). This covers calls and the stack, skips, sprite drawing,
  keys, timer loads and the separate 8XY0-8XYE operations.
