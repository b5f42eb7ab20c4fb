/*
 * The interpreter as the C code has it: one object whose fixed arrays and
 * scalar fields are updated in place by chip8_init, chip8_load_rom,
 * chip8_cycle and chip8_update_timers. Each method is proved to take the
 * object from State() to the machine value Chip8Spec says.
 */
module Interpreter {
  import opened Chip8Spec

  class Chip8 {
    // The arrays are embedded in the C struct, so the references never change.
    const memory: array<Byte>
    const V: array<Byte>
    var I: Word
    var pc: Word
    const stack: array<Word>
    var sp: Byte
    var delayTimer: Byte
    var soundTimer: Byte
    const display: array<Byte>
    const key: array<Byte>
    var drawFlag: Byte
    var keyWait: Byte
    var keyReg: Byte

    /** The arrays have the struct's sizes and are separate storage */
    ghost predicate Valid() {
      && memory.Length == MEMORY_SIZE
      && V.Length == REGISTER_COUNT
      && stack.Length == STACK_DEPTH
      && display.Length == DISPLAY_SIZE
      && key.Length == KEY_COUNT
      && V != key && V != memory && V != display
      && key != memory && key != display && memory != display
    }

    /** Every field, as a value */
    ghost function State(): (m: Machine)
      reads this, memory, V, stack, display, key
    {
      Machine(memory[..], V[..], I, pc, stack[..], sp, delayTimer, soundTimer,
              display[..], key[..], drawFlag, keyWait, keyReg)
    }

    /** Storage for one machine; its contents mean nothing until Init */
    constructor ()
      ensures Valid()
      ensures fresh(memory) && fresh(V) && fresh(stack) && fresh(display) && fresh(key)
    {
      memory := new Byte[MEMORY_SIZE];
      V := new Byte[REGISTER_COUNT];
      stack := new Word[STACK_DEPTH];
      display := new Byte[DISPLAY_SIZE];
      key := new Byte[KEY_COUNT];
    }

    /** chip8_init: clear everything, point pc at the program, copy the font to address 0 */
    method Init()
      requires Valid()
      modifies this, memory, V, stack, display, key
      ensures Valid()
      ensures State() == Reset()
    {
      Fill(memory, 0);
      Fill(V, 0);
      I := 0;
      pc := PROGRAM_START;
      Fill(stack, 0);
      sp := 0;
      delayTimer := 0;
      soundTimer := 0;
      Fill(display, 0);
      Fill(key, 0);
      drawFlag := 1;
      keyWait := 0;
      keyReg := 0;
      CopyFont(memory);
      assert V[..] == Zeros(REGISTER_COUNT);
      assert display[..] == Zeros(DISPLAY_SIZE);
      assert key[..] == Zeros(KEY_COUNT);
      assert stack[..] == Reset().stack;
    }

    /**
     * chip8_load_rom, given the file's bytes `rom` and the number `got` of
     * them that the read delivers. Returns whether the load succeeded.
     */
    method LoadRom(rom: seq<Byte>, got: nat) returns (ok: bool)
      requires Valid() && got <= |rom|
      modifies memory
      ensures memory[..] == LoadRomMemory(old(memory[..]), rom, got)
      ensures ok == LoadRomSucceeds(rom, got)
    {
      var fileSize := |rom|;
      var maxSize := MEMORY_SIZE - PROGRAM_START;
      if fileSize > maxSize {
        return false;
      }
      // The read copies what it obtains to the program origin.
      forall k | 0 <= k < got {
        memory[PROGRAM_START + k] := rom[k];
      }
      assert memory[..] == LoadRomMemory(old(memory[..]), rom, got);
      ok := got == fileSize;
    }

    /** The fetch step of chip8_cycle: the big-endian word at pc */
    method Fetch() returns (opcode: Word)
      requires Valid() && pc + 1 < MEMORY_SIZE
      ensures opcode / 0x100 == memory[pc] && opcode % 0x100 == memory[pc + 1]
      ensures opcode == Opcode(State())
    {
      opcode := memory[pc] as int * 0x100 + memory[pc + 1];
    }

    /** chip8_cycle: one fetch-decode-execute step */
    method Cycle()
      requires Valid() && pc + 1 < MEMORY_SIZE
      modifies this, V, display
      ensures Valid()
      ensures State() == Step(old(State()))
    {
      var opcode := Fetch();
      ghost var ins := Decode(opcode);
      match Family(opcode)
      case 0x0 =>
        if opcode == 0x00E0 {
          assert ins == ClearScreen;
          Fill(display, 0);
          drawFlag := 1;
          pc := (pc + 2) % 0x1_0000;
          assert display[..] == Zeros(display.Length);
        } else if opcode == 0x00EE {
          // The return is a stub: only the pc moves.
          pc := (pc + 2) % 0x1_0000;
        } else {
          pc := (pc + 2) % 0x1_0000;
        }
      case 0x1 =>
        pc := Nnn(opcode);
      case 0x6 =>
        var x := RegX(opcode);
        var nn := Nn(opcode);
        V[x] := nn;
        pc := (pc + 2) % 0x1_0000;
      case 0x8 =>
        var x := RegX(opcode);
        var y := RegY(opcode);
        var sum := V[x] as int + V[y];
        V[FLAG_REGISTER] := if sum > 0xFF then 1 else 0;
        V[x] := sum % 0x100;
        pc := (pc + 2) % 0x1_0000;
      case _ =>
        pc := (pc + 2) % 0x1_0000;
    }

    /** chip8_update_timers: each non-zero timer counts down by one */
    method UpdateTimers()
      requires Valid()
      modifies this
      ensures Valid()
      ensures State() == Tick(old(State()))
    {
      if delayTimer > 0 {
        delayTimer := delayTimer - 1;
      }
      if soundTimer > 0 {
        soundTimer := soundTimer - 1;
      }
    }
  }

  /** The font loop of chip8_init: FONTSET into the cleared memory from address 0 */
  method CopyFont(memory: array<Byte>)
    requires memory.Length == MEMORY_SIZE
    requires forall a :: 0 <= a < MEMORY_SIZE ==> memory[a] == 0
    modifies memory
    ensures memory[..] == ResetMemory()
  {
    for i := 0 to |FONTSET|
      invariant forall a :: 0 <= a < i ==> memory[a] == FONTSET[a]
      invariant forall a :: i <= a < MEMORY_SIZE ==> memory[a] == 0
    {
      memory[i] := FONTSET[i];
    }
  }

  /** memset(a, value, sizeof a): every element of `a` becomes `value` */
  method Fill<T>(a: array<T>, value: T)
    modifies a
    ensures a[..] == seq(a.Length, _ => value)
  {
    forall k | 0 <= k < a.Length {
      a[k] := value;
    }
  }
}
