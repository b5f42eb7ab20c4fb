/*
 * What the operations of chip8.c guarantee, stated over the machine values
 * of Chip8Spec: the effect of each opcode family and what it leaves alone,
 * the invariants a run keeps, the ROM round trip and the timer countdown.
 */
module Chip8Properties {
  import opened Chip8Spec

  // ---------------------------------------------------------------- reset

  /**
   * After reset the font occupies addresses 0-79 and the rest of memory is
   * zero; registers, stack, timers, display and keys are zero; pc is at the
   * program origin and a first repaint is pending.
   */
  lemma ResetState()
    ensures var m := Reset();
      && m.memory[..|FONTSET|] == FONTSET
      && (forall a :: |FONTSET| <= a < MEMORY_SIZE ==> m.memory[a] == 0)
      && (forall r :: 0 <= r < REGISTER_COUNT ==> m.V[r] == 0)
      && (forall d :: 0 <= d < STACK_DEPTH ==> m.stack[d] == 0)
      && (forall k :: 0 <= k < DISPLAY_SIZE ==> m.display[k] == 0)
      && (forall k :: 0 <= k < KEY_COUNT ==> m.key[k] == 0)
      && m.I == 0 && m.sp == 0 && m.delayTimer == 0 && m.soundTimer == 0
      && m.pc == PROGRAM_START && m.drawFlag == 1 && m.keyWait == 0 && m.keyReg == 0
      && CanFetch(m) && DisplayIsBinary(m)
  {
  }

  // ----------------------------------------------------------- ROM loading

  /**
   * An oversized ROM is refused and memory is left as it was; a ROM that fits
   * and is read completely is accepted and appears verbatim at the program
   * origin, with every other address untouched.
   */
  lemma LoadRomOutcome(mem: seq<Byte>, rom: seq<Byte>, got: nat)
    requires |mem| == MEMORY_SIZE && got <= |rom|
    ensures |rom| > MAX_ROM_SIZE ==> !LoadRomSucceeds(rom, got) && LoadRomMemory(mem, rom, got) == mem
    ensures LoadRomSucceeds(rom, got) ==>
      var r := LoadRomMemory(mem, rom, got);
      && r[PROGRAM_START..PROGRAM_START + |rom|] == rom
      && r[..PROGRAM_START] == mem[..PROGRAM_START]
      && r[PROGRAM_START + |rom|..] == mem[PROGRAM_START + |rom|..]
  {
    if LoadRomSucceeds(rom, got) {
      var r := LoadRomMemory(mem, rom, got);
      assert r[PROGRAM_START..PROGRAM_START + |rom|] == rom;
    }
  }

  // ---------------------------------------------------------------- fetch

  /** Writing a word high byte first and reading it back with a fetch gives the word */
  lemma WordRoundTrip(w: Word)
    ensures FetchWord(HighByte(w), LowByte(w)) == w
  {
  }

  /** Two fetches agree only on equal byte pairs: no word has two encodings */
  lemma FetchWordInjective(hi: Byte, lo: Byte, hi': Byte, lo': Byte)
    ensures FetchWord(hi, lo) == FetchWord(hi', lo') <==> hi == hi' && lo == lo'
  {
    var w, w' := FetchWord(hi, lo), FetchWord(hi', lo');
    if w == w' {
      assert hi == w / 0x100 == hi';
    }
  }

  // --------------------------------------------------------------- decode

  /** Instructions as the opcode table spells them, with the fields in range */
  predicate Canonical(ins: Instruction) {
    match ins
    case System(op) => Family(op) == 0x0 && op != 0x00E0 && op != 0x00EE
    case Unimplemented(op) =>
      var f := Family(op); f != 0x0 && f != 0x1 && f != 0x6 && f != 0x8
    case _ => true
  }

  /** An assembler for the decoded instructions; every 8XY? is written as 8XY4 */
  function Encode(ins: Instruction): Word {
    match ins
    case ClearScreen => 0x00E0
    case Return => 0x00EE
    case System(op) => op
    case Jump(target) => 0x1000 + target
    case LoadImmediate(x, nn) => 0x6000 + x * 0x100 + nn
    case AddRegisters(x, y) => 0x8000 + x * 0x100 + y * 0x10 + 0x4
    case Unimplemented(op) => op
  }

  /** Division by 16 undoes a shift by one hexadecimal digit */
  lemma DivMod16(q: nat, r: Nibble)
    ensures (q * 0x10 + r) / 0x10 == q && (q * 0x10 + r) % 0x10 == r
  {
  }

  /** The fields of a word assembled from four hexadecimal digits */
  lemma Digits(a: Nibble, b: Nibble, c: Nibble, d: Nibble)
    ensures
      var op := a * 0x1000 + b * 0x100 + c * 0x10 + d;
      && op < 0x1_0000
      && Family(op) == a && RegX(op) == b && RegY(op) == c && op % 0x10 == d
      && Nnn(op) == b * 0x100 + c * 0x10 + d && Nn(op) == c * 0x10 + d
  {
    var op := a * 0x1000 + b * 0x100 + c * 0x10 + d;
    DivMod16(a * 0x100 + b * 0x10 + c, d);
    DivMod16(a * 0x10 + b, c);
    DivMod16(a, b);
    assert op / 0x10 == a * 0x100 + b * 0x10 + c;
    assert op / 0x100 == op / 0x10 / 0x10;
    assert op / 0x1000 == op / 0x100 / 0x10;
  }

  /** Every word is its four digits */
  lemma Split(op: Word)
    ensures op == Family(op) * 0x1000 + RegX(op) * 0x100 + RegY(op) * 0x10 + op % 0x10
  {
    var q1, q2, q3 := op / 0x10, op / 0x100, op / 0x1000;
    assert op == q1 * 0x10 + op % 0x10;
    assert q2 == q1 / 0x10 && q1 == q2 * 0x10 + q1 % 0x10;
    assert q3 == q2 / 0x10 && q2 == q3 * 0x10 + q2 % 0x10;
  }

  /** Decoding an assembled instruction gives the instruction back */
  lemma DecodeEncode(ins: Instruction)
    requires Canonical(ins)
    ensures Decode(Encode(ins)) == ins
  {
    match ins
    case Jump(target) =>
      Digits(0x1, target / 0x100, target / 0x10 % 0x10, target % 0x10);
    case LoadImmediate(x, nn) =>
      Digits(0x6, x, nn / 0x10, nn % 0x10);
    case AddRegisters(x, y) =>
      Digits(0x8, x, y, 0x4);
    case _ =>
  }

  /**
   * Decoding loses only the low nibble of an 8XY? word: re-assembling any
   * decoded word gives it back, except that 8XY? comes back as 8XY4.
   */
  lemma EncodeDecode(op: Word)
    ensures Canonical(Decode(op))
    ensures Family(op) != 0x8 ==> Encode(Decode(op)) == op
    ensures Family(op) == 0x8 ==> Encode(Decode(op)) == op - op % 0x10 + 0x4
  {
    Split(op);
    Digits(Family(op), RegX(op), RegY(op), op % 0x10);
  }

  /** Every 8XY? behaves as 8XY4, the add with carry: the selector nibble is ignored */
  lemma AluSelectorIgnored(op: Word, selector: Nibble)
    requires Family(op) == 0x8
    ensures Decode(op - op % 0x10 + selector) == Decode(op)
  {
    Split(op);
    Digits(0x8, RegX(op), RegY(op), selector);
  }

  // ------------------------------------------------- one cycle, per opcode

  /** 00E0 blanks the display, asks for a repaint and moves to the next instruction */
  lemma StepClearScreen(m: Machine)
    requires WellFormed(m) && CanFetch(m) && Opcode(m) == 0x00E0
    ensures Step(m) == m.(display := Zeros(|m.display|), drawFlag := 1, pc := m.pc + 2)
  {
    var ins := Decode(Opcode(m));
    assert ins == ClearScreen;
    AdvancePc(m.pc);
  }

  /** On a pc a fetch can use, `pc += 2` does not wrap */
  lemma AdvancePc(pc: Word)
    requires pc + 1 < MEMORY_SIZE
    ensures NextPc(pc) == pc + 2
  {
  }

  /** `pc += 2` on a uint16_t advances by two, except that 0xFFFE and 0xFFFF wrap to 0 and 1 */
  lemma NextPcWraps(pc: Word)
    ensures pc < 0xFFFE ==> NextPc(pc) == pc + 2
    ensures pc >= 0xFFFE ==> NextPc(pc) == pc + 2 - 0x1_0000
  {
  }

  /** 00EE and every other 0NNN but 00E0 only move to the next instruction */
  lemma StepSystem(m: Machine)
    requires WellFormed(m) && CanFetch(m)
    requires Family(Opcode(m)) == 0x0 && Opcode(m) != 0x00E0
    ensures Step(m) == m.(pc := m.pc + 2)
  {
    var ins := Decode(Opcode(m));
    assert ins.Return? || ins.System?;
    AdvancePc(m.pc);
  }

  /** 1NNN sets pc to NNN, with no +2, and changes nothing else */
  lemma StepJump(m: Machine)
    requires WellFormed(m) && CanFetch(m) && Family(Opcode(m)) == 0x1
    ensures Step(m) == m.(pc := Opcode(m) % 0x1000)
  {
  }

  /** 6XNN puts NN in VX and moves on */
  lemma StepLoadImmediate(m: Machine)
    requires WellFormed(m) && CanFetch(m) && Family(Opcode(m)) == 0x6
    ensures
      var op := Opcode(m);
      Step(m) == m.(V := m.V[op / 0x100 % 0x10 := op % 0x100], pc := m.pc + 2)
  {
  }

  /**
   * 8XY? adds VY to VX: VX becomes the sum modulo 256 and, unless X is F,
   * VF becomes 1 exactly when the sum of the old values exceeds 255. With
   * X = F the flag is overwritten by the sum. Other registers and all other
   * fields but pc keep their values.
   */
  lemma StepAdd(m: Machine)
    requires WellFormed(m) && CanFetch(m) && Family(Opcode(m)) == 0x8
    ensures
      var op := Opcode(m);
      var x, y := op / 0x100 % 0x10, op / 0x10 % 0x10;
      var sum := m.V[x] as int + m.V[y];
      var r := Step(m);
      && r == m.(V := r.V, pc := m.pc + 2)
      && r.V[x] == sum % 0x100
      && (x != FLAG_REGISTER ==> r.V[FLAG_REGISTER] == if sum > 0xFF then 1 else 0)
      && (x == FLAG_REGISTER ==> r.V[FLAG_REGISTER] == sum % 0x100)
      && (forall k :: 0 <= k < REGISTER_COUNT && k != x && k != FLAG_REGISTER ==> r.V[k] == m.V[k])
  {
  }

  /** Families 2-5, 7 and 9-F are not implemented: they only move pc on */
  lemma StepUnimplemented(m: Machine)
    requires WellFormed(m) && CanFetch(m)
    requires var f := Family(Opcode(m)); f != 0x0 && f != 0x1 && f != 0x6 && f != 0x8
    ensures Step(m) == m.(pc := m.pc + 2)
  {
  }

  // ------------------------------------------------------------ invariants

  /** What the cycle never touches, and what it does to the display */
  predicate CycleKeeps(m: Machine, r: Machine) {
    && r.memory == m.memory && r.I == m.I
    && r.stack == m.stack && r.sp == m.sp
    && r.delayTimer == m.delayTimer && r.soundTimer == m.soundTimer
    && r.key == m.key && r.keyWait == m.keyWait && r.keyReg == m.keyReg
    && (r.display == m.display || r.display == Zeros(|m.display|))
    && (DisplayIsBinary(m) ==> DisplayIsBinary(r))
  }

  /**
   * One cycle never writes memory, I, the stack, sp, the timers or the keys;
   * the display is either left alone or blanked, so its cells stay 0 or 1,
   * and a blanked display always comes with the draw flag set.
   */
  lemma StepFrame(m: Machine)
    requires WellFormed(m) && CanFetch(m)
    ensures CycleKeeps(m, Step(m))
    ensures Step(m).display != m.display ==> Step(m).drawFlag == 1
  {
  }

  /** The same holds over any number of cycles */
  lemma {:induction false} StepsFrame(m: Machine, n: nat)
    requires WellFormed(m)
    ensures CycleKeeps(m, Steps(m, n))
    decreases n
  {
    if n > 0 && CanFetch(m) {
      var next := Step(m);
      StepFrame(m);
      StepsFrame(next, n - 1);
      StepsOnce(m, n);
      CycleKeepsTransitive(m, next, Steps(next, n - 1));
    }
  }

  /** Two stretches that each keep the frame keep it together */
  lemma CycleKeepsTransitive(a: Machine, b: Machine, c: Machine)
    requires CycleKeeps(a, b) && CycleKeeps(b, c)
    ensures CycleKeeps(a, c)
  {
  }

  /** Running a then b cycles is running a + b cycles */
  lemma {:induction false} StepsAdd(m: Machine, a: nat, b: nat)
    requires WellFormed(m)
    ensures Steps(m, a + b) == Steps(Steps(m, a), b)
    decreases a
  {
    if a == 0 {
    } else if !CanFetch(m) {
      StepsHalted(m, b);
      StepsHalted(m, a + b);
    } else {
      var next := Step(m);
      StepsAdd(next, a - 1, b);
      StepsOnce(m, a + b);
      StepsOnce(m, a);
    }
  }

  /** A machine that can fetch runs its first cycle, then the rest */
  lemma StepsOnce(m: Machine, n: nat)
    requires WellFormed(m) && CanFetch(m) && n > 0
    ensures Steps(m, n) == Steps(Step(m), n - 1)
  {
  }

  /** A machine whose next fetch would leave memory does not run */
  lemma StepsHalted(m: Machine, n: nat)
    requires WellFormed(m) && !CanFetch(m)
    ensures Steps(m, n) == m
  {
  }

  // --------------------------------------------------------------- timers

  /** Subtraction that stops at zero */
  function SaturatingSub(t: Byte, n: nat): Byte {
    if t > n then t - n else 0
  }

  /**
   * After n ticks each timer is down by n, or at zero if it held n or less;
   * no other field changes.
   */
  lemma {:induction false} TicksCountDown(m: Machine, n: nat)
    ensures Ticks(m, n) == m.(delayTimer := SaturatingSub(m.delayTimer, n),
                              soundTimer := SaturatingSub(m.soundTimer, n))
    decreases n
  {
    if n > 0 {
      TicksCountDown(Tick(m), n - 1);
    }
  }

  /** The tone is on (sound timer positive) after n ticks exactly when the timer held more than n */
  lemma SoundGate(m: Machine, n: nat)
    ensures Ticks(m, n).soundTimer > 0 <==> m.soundTimer > n
  {
    TicksCountDown(m, n);
  }
}
