/*
 * The CHIP-8 machine state (chip8.h) and, as pure functions over it, what
 * each operation of chip8.c does to it: reset, ROM loading, one
 * fetch-decode-execute cycle and one timer tick.
 *
 * The C code works on uint8_t and uint16_t and combines bytes with shifts
 * and masks; on those non-negative values `hi << 8 | lo` is `hi * 0x100 + lo`,
 * `w & 0x0FFF` is `w % 0x1000`, `(w & 0x0F00) >> 8` is `w / 0x100 % 0x10`,
 * and so on, which is how they are written here.
 */
module Chip8Spec {

  type Byte = x: int | 0 <= x < 0x100
  type Word = x: int | 0 <= x < 0x1_0000
  type Nibble = x: int | 0 <= x < 0x10
  type Address = x: int | 0 <= x < 0x1000

  const MEMORY_SIZE: nat := 4096
  const PROGRAM_START: nat := 0x200
  const DISPLAY_WIDTH: nat := 64
  const DISPLAY_HEIGHT: nat := 32
  const DISPLAY_SIZE: nat := DISPLAY_WIDTH * DISPLAY_HEIGHT
  const REGISTER_COUNT: nat := 16
  const STACK_DEPTH: nat := 16
  const KEY_COUNT: nat := 16
  /** VF, the carry register */
  const FLAG_REGISTER: Nibble := 0xF
  /** Room for a ROM between the program origin and the end of memory */
  const MAX_ROM_SIZE: nat := MEMORY_SIZE - PROGRAM_START

  /** The hexadecimal digits 0-F, five rows of one byte each */
  const FONTSET: seq<Byte> := [
    0xF0, 0x90, 0x90, 0x90, 0xF0, // 0
    0x20, 0x60, 0x20, 0x20, 0x70, // 1
    0xF0, 0x10, 0xF0, 0x80, 0xF0, // 2
    0xF0, 0x10, 0xF0, 0x10, 0xF0, // 3
    0x90, 0x90, 0xF0, 0x10, 0x10, // 4
    0xF0, 0x80, 0xF0, 0x10, 0xF0, // 5
    0xF0, 0x80, 0xF0, 0x90, 0xF0, // 6
    0xF0, 0x10, 0x20, 0x40, 0x40, // 7
    0xF0, 0x90, 0xF0, 0x90, 0xF0, // 8
    0xF0, 0x90, 0xF0, 0x10, 0xF0, // 9
    0xF0, 0x90, 0xF0, 0x90, 0x90, // A
    0xE0, 0x90, 0xE0, 0x90, 0xE0, // B
    0xF0, 0x80, 0x80, 0x80, 0xF0, // C
    0xE0, 0x90, 0x90, 0x90, 0xE0, // D
    0xF0, 0x80, 0xF0, 0x80, 0xF0, // E
    0xF0, 0x80, 0xF0, 0x80, 0x80  // F
  ]

  /** The value of every field of the machine, one component per struct member */
  datatype Machine = Machine(
    memory: seq<Byte>,
    V: seq<Byte>,
    I: Word,
    pc: Word,
    stack: seq<Word>,
    sp: Byte,
    delayTimer: Byte,
    soundTimer: Byte,
    display: seq<Byte>,
    key: seq<Byte>,
    drawFlag: Byte,
    keyWait: Byte,
    keyReg: Byte)

  /** Every array of the struct has its declared size */
  predicate WellFormed(m: Machine) {
    && |m.memory| == MEMORY_SIZE
    && |m.V| == REGISTER_COUNT
    && |m.stack| == STACK_DEPTH
    && |m.display| == DISPLAY_SIZE
    && |m.key| == KEY_COUNT
  }

  /** Every display cell is off (0) or on (1) */
  predicate DisplayIsBinary(m: Machine) {
    forall k :: 0 <= k < |m.display| ==> m.display[k] <= 1
  }

  function Zeros(n: nat): (z: seq<Byte>)
    ensures |z| == n && forall k :: 0 <= k < n ==> z[k] == 0
  {
    seq(n, _ => 0)
  }

  // ---------------------------------------------------------------- reset

  /** Memory as reset leaves it: the font at address 0, zero everywhere else */
  function ResetMemory(): seq<Byte> {
    seq(MEMORY_SIZE, a requires 0 <= a < MEMORY_SIZE => if a < |FONTSET| then FONTSET[a] else 0)
  }

  /** The machine after chip8_init, whatever it held before */
  function Reset(): (m: Machine)
    ensures WellFormed(m)
  {
    Machine(
      memory := ResetMemory(),
      V := Zeros(REGISTER_COUNT),
      I := 0,
      pc := PROGRAM_START,
      stack := seq(STACK_DEPTH, _ => 0),
      sp := 0,
      delayTimer := 0,
      soundTimer := 0,
      display := Zeros(DISPLAY_SIZE),
      key := Zeros(KEY_COUNT),
      drawFlag := 1,
      keyWait := 0,
      keyReg := 0)
  }

  // ------------------------------------------------------------- ROM load

  /**
   * Memory after chip8_load_rom is given a file holding `rom`, of which the
   * read delivers the first `got` bytes. An oversized file is rejected before
   * anything is read; otherwise what was read lands at the program origin.
   */
  function LoadRomMemory(mem: seq<Byte>, rom: seq<Byte>, got: nat): (r: seq<Byte>)
    requires |mem| == MEMORY_SIZE && got <= |rom|
    ensures |r| == MEMORY_SIZE
    ensures |rom| > MAX_ROM_SIZE ==> r == mem
    ensures |rom| <= MAX_ROM_SIZE ==>
      && (forall k :: 0 <= k < got ==> r[PROGRAM_START + k] == rom[k])
      && (forall a :: 0 <= a < PROGRAM_START || PROGRAM_START + got <= a < MEMORY_SIZE ==> r[a] == mem[a])
  {
    if |rom| > MAX_ROM_SIZE then mem
    else mem[..PROGRAM_START] + rom[..got] + mem[PROGRAM_START + got..]
  }

  /** The value chip8_load_rom returns (1 as true, 0 as false) */
  predicate LoadRomSucceeds(rom: seq<Byte>, got: nat) {
    |rom| <= MAX_ROM_SIZE && got == |rom|
  }

  // ---------------------------------------------------------------- fetch

  /** A fetch reads memory[pc] and memory[pc + 1], so pc + 1 must be an address */
  predicate CanFetch(m: Machine) {
    m.pc + 1 < MEMORY_SIZE
  }

  /** The big-endian instruction word `hi << 8 | lo` */
  function FetchWord(hi: Byte, lo: Byte): (w: Word)
    ensures w / 0x100 == hi && w % 0x100 == lo
  {
    hi * 0x100 + lo
  }

  /** The byte a ROM writer emits first for a word: `w >> 8` */
  function HighByte(w: Word): Byte {
    w / 0x100
  }

  /** The byte a ROM writer emits second for a word: `w & 0xFF` */
  function LowByte(w: Word): Byte {
    w % 0x100
  }

  /** The instruction word at pc */
  function Opcode(m: Machine): (op: Word)
    requires WellFormed(m) && CanFetch(m)
    ensures op / 0x100 == m.memory[m.pc] && op % 0x100 == m.memory[m.pc + 1]
  {
    FetchWord(m.memory[m.pc], m.memory[m.pc + 1])
  }

  // --------------------------------------------------------------- decode

  /** The operand fields of an instruction word */
  function Family(op: Word): Nibble { op / 0x1000 }     // (opcode & 0xF000) >> 12
  function Nnn(op: Word): Address { op % 0x1000 }      // opcode & 0x0FFF
  function Nn(op: Word): Byte { op % 0x100 }           // opcode & 0x00FF
  function RegX(op: Word): Nibble { op / 0x100 % 0x10 } // (opcode & 0x0F00) >> 8
  function RegY(op: Word): Nibble { op / 0x10 % 0x10 }  // (opcode & 0x00F0) >> 4

  /** The instructions chip8_cycle tells apart */
  datatype Instruction =
    | ClearScreen                        // 00E0
    | Return                             // 00EE, a stub that only advances pc
    | System(opcode: Word)               // any other 0NNN
    | Jump(target: Address)              // 1NNN
    | LoadImmediate(x: Nibble, nn: Byte) // 6XNN
    | AddRegisters(x: Nibble, y: Nibble) // 8XY?, whatever the low nibble
    | Unimplemented(opcode: Word)        // families 2-5, 7 and 9-F

  /** chip8_cycle's dispatch: on the top nibble, then on the whole word for family 0 */
  function Decode(op: Word): (ins: Instruction)
    ensures ins.ClearScreen? <==> op == 0x00E0
    ensures ins.Return? <==> op == 0x00EE
    ensures ins.System? <==> Family(op) == 0x0 && op != 0x00E0 && op != 0x00EE
    ensures ins.Jump? <==> Family(op) == 0x1
    ensures ins.LoadImmediate? <==> Family(op) == 0x6
    ensures ins.AddRegisters? <==> Family(op) == 0x8
    ensures ins.Unimplemented? <==> Family(op) != 0x0 && Family(op) != 0x1 && Family(op) != 0x6 && Family(op) != 0x8
  {
    match Family(op)
    case 0x0 =>
      if op == 0x00E0 then ClearScreen
      else if op == 0x00EE then Return
      else System(op)
    case 0x1 => Jump(Nnn(op))
    case 0x6 => LoadImmediate(RegX(op), Nn(op))
    case 0x8 => AddRegisters(RegX(op), RegY(op))
    case _ => Unimplemented(op)
  }

  // -------------------------------------------------------------- execute

  /** `pc += 2` on a uint16_t */
  function NextPc(pc: Word): Word
  {
    (pc + 2) % 0x1_0000
  }

  /** The 8XY? case: the sum of the old V[x] and V[y], VF := carry, then V[x] := sum & 0xFF */
  function AddWithCarry(regs: seq<Byte>, x: Nibble, y: Nibble): (r: seq<Byte>)
    requires |regs| == REGISTER_COUNT
    ensures |r| == REGISTER_COUNT
  {
    var sum := regs[x] as int + regs[y];
    var flagged := regs[FLAG_REGISTER := if sum > 0xFF then 1 else 0];
    flagged[x := sum % 0x100]
  }

  /** The effect of one decoded instruction */
  function Execute(m: Machine, ins: Instruction): (r: Machine)
    requires WellFormed(m)
    ensures WellFormed(r)
  {
    match ins
    case ClearScreen => m.(display := Zeros(|m.display|), drawFlag := 1, pc := NextPc(m.pc))
    case Return => m.(pc := NextPc(m.pc))
    case System(_) => m.(pc := NextPc(m.pc))
    case Jump(target) => m.(pc := target)
    case LoadImmediate(x, nn) => m.(V := m.V[x := nn], pc := NextPc(m.pc))
    case AddRegisters(x, y) => m.(V := AddWithCarry(m.V, x, y), pc := NextPc(m.pc))
    case Unimplemented(_) => m.(pc := NextPc(m.pc))
  }

  /** chip8_cycle: fetch the word at pc, decode it, execute it */
  function Step(m: Machine): (r: Machine)
    requires WellFormed(m) && CanFetch(m)
    ensures WellFormed(r)
  {
    Execute(m, Decode(Opcode(m)))
  }

  /**
   * The driver's loop of n cycles. A fetch past the end of memory is
   * undefined in C; the run stops at the first cycle that would do one.
   */
  function Steps(m: Machine, n: nat): (r: Machine)
    requires WellFormed(m)
    ensures WellFormed(r)
    decreases n
  {
    if n == 0 || !CanFetch(m) then m else Steps(Step(m), n - 1)
  }

  // --------------------------------------------------------------- timers

  /** chip8_update_timers: each timer counts down by one, stopping at zero */
  function Tick(m: Machine): (r: Machine)
    ensures m.delayTimer > 0 ==> r.delayTimer == m.delayTimer - 1
    ensures m.delayTimer == 0 ==> r.delayTimer == 0
    ensures m.soundTimer > 0 ==> r.soundTimer == m.soundTimer - 1
    ensures m.soundTimer == 0 ==> r.soundTimer == 0
    ensures r.(delayTimer := m.delayTimer, soundTimer := m.soundTimer) == m
  {
    m.(delayTimer := if m.delayTimer > 0 then m.delayTimer - 1 else 0,
       soundTimer := if m.soundTimer > 0 then m.soundTimer - 1 else 0)
  }

  /** n timer ticks in a row */
  function Ticks(m: Machine, n: nat): (r: Machine)
    ensures r.delayTimer <= m.delayTimer && r.soundTimer <= m.soundTimer
    ensures r.(delayTimer := m.delayTimer, soundTimer := m.soundTimer) == m
    decreases n
  {
    if n == 0 then m else Ticks(Tick(m), n - 1)
  }
}
