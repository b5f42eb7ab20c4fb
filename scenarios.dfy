/*
 * What the repository's test programs do on the model: the five-instruction
 * demo ROM written by create_rom.c (and poked into memory by main.c when no
 * ROM loads), and the beep test written word by word by periodic_sound.c.
 */
module Chip8Scenarios {
  import opened Chip8Spec
  import opened Chip8Properties

  /** CLS; V1 := 0x02; V2 := 0x03; V1 += V2; jump to 0x200 */
  const DEMO_ROM: seq<Byte> := [0x00, 0xE0, 0x61, 0x02, 0x62, 0x03, 0x81, 0x24, 0x12, 0x00]

  /** A reset machine into which `rom` has been loaded completely */
  function Boot(rom: seq<Byte>): (m: Machine)
    requires |rom| <= MAX_ROM_SIZE
    ensures WellFormed(m) && CanFetch(m) && m.pc == PROGRAM_START
    ensures forall j :: 0 <= j < |rom| ==> m.memory[PROGRAM_START + j] == rom[j]
  {
    var s := Reset();
    s.(memory := LoadRomMemory(s.memory, rom, |rom|))
  }

  /** The demo ROM sits at the program origin */
  predicate HoldsDemo(m: Machine) {
    && WellFormed(m)
    && forall j :: 0 <= j < |DEMO_ROM| ==> m.memory[PROGRAM_START + j] == DEMO_ROM[j]
  }

  /** Cycle 1, 00E0 at 0x200 */
  lemma DemoClear(m: Machine)
    requires HoldsDemo(m) && m.pc == 0x200
    ensures Step(m) == m.(display := Zeros(|m.display|), drawFlag := 1, pc := 0x202)
  {
    assert m.memory[0x200] == DEMO_ROM[0] && m.memory[0x201] == DEMO_ROM[1];
    StepClearScreen(m);
  }

  /** Cycles 2 and 3, 6102 at 0x202 and 6203 at 0x204 */
  lemma DemoLoads(m: Machine)
    requires HoldsDemo(m) && m.pc == 0x202
    ensures Step(m) == m.(V := m.V[1 := 2], pc := 0x204)
    ensures Step(Step(m)) == m.(V := m.V[1 := 2][2 := 3], pc := 0x206)
  {
    assert m.memory[0x202] == DEMO_ROM[2] && m.memory[0x203] == DEMO_ROM[3];
    StepLoadImmediate(m);
    var m' := Step(m);
    assert m'.memory[0x204] == DEMO_ROM[4] && m'.memory[0x205] == DEMO_ROM[5];
    StepLoadImmediate(m');
  }

  /** Cycle 4, 8124 at 0x206 */
  lemma DemoAdd(m: Machine)
    requires HoldsDemo(m) && m.pc == 0x206
    ensures Step(m) == m.(V := AddWithCarry(m.V, 1, 2), pc := 0x208)
  {
    assert m.memory[0x206] == DEMO_ROM[6] && m.memory[0x207] == DEMO_ROM[7];
    assert Opcode(m) == 0x8124;
  }

  /** Cycle 5, 1200 at 0x208 */
  lemma DemoJump(m: Machine)
    requires HoldsDemo(m) && m.pc == 0x208
    ensures Step(m) == m.(pc := 0x200)
  {
    assert m.memory[0x208] == DEMO_ROM[8] && m.memory[0x209] == DEMO_ROM[9];
    StepJump(m);
  }

  /** The five cycles of one pass through the demo loop */
  lemma DemoPass(m: Machine)
    requires HoldsDemo(m) && m.pc == PROGRAM_START
    ensures Steps(m, 4).V == AddWithCarry(m.V[1 := 2][2 := 3], 1, 2)
    ensures Steps(m, 4).pc == 0x208
    ensures Steps(m, 5) == m.(V := Steps(m, 4).V, display := Zeros(|m.display|), drawFlag := 1)
  {
    DemoClear(m);
    var m1 := Step(m);
    DemoLoads(m1);
    var m2 := Step(m1);
    var m3 := Step(m2);
    DemoAdd(m3);
    var m4 := Step(m3);
    DemoJump(m4);
    var m5 := Step(m4);
    assert Steps(m, 4) == m4 by {
      assert Steps(m, 4) == Steps(m1, 3) == Steps(m2, 2) == Steps(m3, 1) == Steps(m4, 0);
    }
    assert Steps(m, 5) == m5 by {
      assert Steps(m, 5) == Steps(m1, 4) == Steps(m2, 3) == Steps(m3, 2) == Steps(m4, 1) == Steps(m5, 0);
    }
  }

  /** A machine about to run the demo: the ROM loaded, pc at its start, every register zero */
  predicate DemoStart(m: Machine) {
    HoldsDemo(m) && m.pc == PROGRAM_START && m.V == Zeros(REGISTER_COUNT)
  }

  /** The machine each time the demo loop jumps back to 0x200 */
  function DemoLoopState(m: Machine): Machine {
    m.(V := Zeros(REGISTER_COUNT)[1 := 5][2 := 3], display := Zeros(|m.display|), drawFlag := 1,
       pc := PROGRAM_START)
  }

  /**
   * After four cycles the demo holds V1 = 2 + 3 = 5 with no carry in VF and
   * pc at the jump; the fifth cycle, the jump, brings pc back to 0x200.
   */
  lemma DemoFirstPass(m: Machine)
    requires DemoStart(m)
    ensures var r := Steps(m, 4);
      r.V[1] == 5 && r.V[2] == 3 && r.V[FLAG_REGISTER] == 0 && r.pc == 0x208
    ensures Steps(m, 5) == DemoLoopState(m)
  {
    DemoPass(m);
    DemoSum(m.V);
  }

  /** The registers after one pass: V1 = 5, V2 = 3, VF = 0 and the rest as before */
  lemma DemoSum(v: seq<Byte>)
    requires |v| == REGISTER_COUNT
    ensures var w := AddWithCarry(v[1 := 2][2 := 3], 1, 2);
      w[1] == 5 && w[2] == 3 && w[FLAG_REGISTER] == 0
      && (v == Zeros(REGISTER_COUNT) ==> w == Zeros(REGISTER_COUNT)[1 := 5][2 := 3])
      && (v == Zeros(REGISTER_COUNT)[1 := 5][2 := 3] ==> w == v)
  {
    var w := AddWithCarry(v[1 := 2][2 := 3], 1, 2);
    assert w == v[1 := 5][2 := 3][FLAG_REGISTER := 0];
  }

  /** Every later pass through the loop ends where the first one did */
  lemma DemoLoopIsFixed(m: Machine)
    requires HoldsDemo(m)
    ensures Steps(DemoLoopState(m), 5) == DemoLoopState(m)
  {
    var l := DemoLoopState(m);
    DemoPass(l);
    DemoSum(l.V);
  }

  /** The demo runs forever: after every pass pc is back at 0x200 with V1 = 5 and VF = 0 */
  lemma DemoLoopsForever(m: Machine, n: nat)
    requires DemoStart(m)
    ensures Steps(m, 5 * n + 5) == DemoLoopState(m)
    ensures var r := Steps(m, 5 * n + 5);
      r.pc == PROGRAM_START && r.V[1] == 5 && r.V[FLAG_REGISTER] == 0
  {
    DemoPasses(m, n);
    assert DemoLoopState(m).V == Zeros(REGISTER_COUNT)[1 := 5][2 := 3];
  }

  /** Each pass of five cycles returns the demo to its loop state */
  lemma {:induction false} DemoPasses(m: Machine, n: nat)
    requires DemoStart(m)
    ensures Steps(m, 5 * n + 5) == DemoLoopState(m)
    decreases n
  {
    if n == 0 {
      DemoFirstPass(m);
    } else {
      DemoPasses(m, n - 1);
      DemoNextPass(m, 5 * (n - 1) + 5);
    }
  }

  /** Once a run is in the loop state, five more cycles leave it there */
  lemma DemoNextPass(m: Machine, k: nat)
    requires HoldsDemo(m) && Steps(m, k) == DemoLoopState(m)
    ensures Steps(m, k + 5) == DemoLoopState(m)
  {
    StepsAdd(m, k, 5);
    DemoLoopIsFixed(m);
  }

  /** Resetting and loading the demo ROM readies it to run, so the lemmas above apply to it */
  lemma BootDemo()
    ensures DemoStart(Boot(DEMO_ROM))
  {
  }

  // ------------------------------------------------------------ beep test

  /** The instruction words periodic_sound.c writes to its ROM */
  const BEEP_TEST: seq<Word> := [
    0x600A, 0x610F, 0x6200,
    0x3200, 0x1210,
    0xF018, 0x7001,
    0x6300, 0xF315, 0xF307, 0x4300, 0x120E,
    0xF118, 0x7101,
    0x6300, 0xF315, 0xF307, 0x4300, 0x121A,
    0x8203, 0x1206]

  /** The ROM bytes for a list of words, each written high byte then low byte */
  function EncodeWords(ws: seq<Word>): (bytes: seq<Byte>)
    ensures |bytes| == 2 * |ws|
  {
    if ws == [] then [] else [HighByte(ws[0]), LowByte(ws[0])] + EncodeWords(ws[1..])
  }

  /** Word j of the list sits at offsets 2j and 2j + 1 of its encoding */
  lemma {:induction false} EncodeWordsAt(ws: seq<Word>, j: nat)
    requires j < |ws|
    ensures EncodeWords(ws)[2 * j] == HighByte(ws[j])
    ensures EncodeWords(ws)[2 * j + 1] == LowByte(ws[j])
  {
    if j > 0 {
      EncodeWordsAt(ws[1..], j - 1);
    }
  }

  /** Memory from the program origin on fetches back the words `ws` */
  predicate HoldsWords(m: Machine, ws: seq<Word>) {
    && WellFormed(m)
    && PROGRAM_START + 2 * |ws| <= MEMORY_SIZE
    && forall j :: 0 <= j < |ws| ==>
         FetchWord(m.memory[PROGRAM_START + 2 * j], m.memory[PROGRAM_START + 2 * j + 1]) == ws[j]
  }

  /**
   * A ROM written word by word, high byte first, and then loaded fetches back
   * every word unchanged. The proof is pointwise; automatic induction on `ws`
   * is switched off because it only adds solver work.
   */
  lemma {:induction false} LoadedWordsFetchBack(ws: seq<Word>)
    requires 2 * |ws| <= MAX_ROM_SIZE
    ensures HoldsWords(Boot(EncodeWords(ws)), ws)
  {
    var m := Boot(EncodeWords(ws));
    forall j | 0 <= j < |ws|
      ensures FetchWord(m.memory[PROGRAM_START + 2 * j], m.memory[PROGRAM_START + 2 * j + 1]) == ws[j]
    {
      EncodeWordsAt(ws, j);
      assert m.memory[PROGRAM_START + 2 * j] == HighByte(ws[j]);
      assert m.memory[PROGRAM_START + 2 * j + 1] == LowByte(ws[j]);
      WordRoundTrip(ws[j]);
    }
  }

  /** The word fetched at the j-th instruction slot of a memory holding `ws` */
  lemma OpcodeAt(m: Machine, k: Machine, ws: seq<Word>, j: nat)
    requires HoldsWords(m, ws) && j < |ws|
    requires WellFormed(k) && k.memory == m.memory && k.pc == PROGRAM_START + 2 * j
    ensures CanFetch(k) && Opcode(k) == ws[j]
  {
  }

  /** Cycle j + 1 of the beep test, for j < 3, is 6jNN: it sets Vj to the word's low byte */
  lemma BeepTestLoad(m: Machine, k: Machine, j: nat)
    requires HoldsWords(m, BEEP_TEST) && j < 3
    requires WellFormed(k) && k.memory == m.memory && k.pc == PROGRAM_START + 2 * j
    ensures Step(k) == k.(V := k.V[j := BEEP_TEST[j] % 0x100], pc := k.pc + 2)
  {
    OpcodeAt(m, k, BEEP_TEST, j);
    StepLoadImmediate(k);
  }

  /** The beep test's first three cycles load V0 = 10, V1 = 15 and V2 = 0 */
  lemma BeepTestLoads(m: Machine)
    requires HoldsWords(m, BEEP_TEST) && m.pc == PROGRAM_START
    ensures Steps(m, 3) == m.(V := m.V[0 := 0x0A][1 := 0x0F][2 := 0x00], pc := 0x206)
  {
    BeepTestLoad(m, m, 0);
    var m1 := Step(m);
    BeepTestLoad(m, m1, 1);
    var m2 := Step(m1);
    BeepTestLoad(m, m2, 2);
    var m3 := Step(m2);
    assert Steps(m, 3) == m3 by {
      assert Steps(m, 3) == Steps(m1, 2) == Steps(m2, 1) == Steps(m3, 0);
    }
  }

  /** The skip 3200 at 0x206 is not implemented: it falls through to the jump 1210 */
  lemma BeepTestSkipFallsThrough(m: Machine, k: Machine)
    requires HoldsWords(m, BEEP_TEST)
    requires WellFormed(k) && k.memory == m.memory && k.pc == 0x206
    ensures Steps(k, 2) == k.(pc := 0x210)
  {
    OpcodeAt(m, k, BEEP_TEST, 3);
    StepUnimplemented(k);
    var k1 := Step(k);
    OpcodeAt(m, k1, BEEP_TEST, 4);
    StepJump(k1);
    var k2 := Step(k1);
    assert Steps(k, 2) == k2 by {
      assert Steps(k, 2) == Steps(k1, 1) == Steps(k2, 0);
    }
  }

  /**
   * The beep test sets V0 = 10, V1 = 15 and V2 = 0; its skip 3200 is not
   * implemented, so it falls through to the jump and reaches 0x210 after
   * five cycles.
   */
  lemma BeepTestFirstCycles(m: Machine)
    requires HoldsWords(m, BEEP_TEST) && m.pc == PROGRAM_START
    ensures var r := Steps(m, 5);
      r.V[0] == 0x0A && r.V[1] == 0x0F && r.V[2] == 0x00 && r.pc == 0x210
  {
    BeepTestLoads(m);
    BeepTestSkipFallsThrough(m, Steps(m, 3));
    StepsAdd(m, 3, 2);
  }

  /** Resetting and loading the beep test readies it to run, so the lemma above applies to it */
  lemma BootBeepTest()
    ensures HoldsWords(Boot(EncodeWords(BEEP_TEST)), BEEP_TEST)
    ensures Boot(EncodeWords(BEEP_TEST)).pc == PROGRAM_START
  {
    LoadedWordsFetchBack(BEEP_TEST);
  }
}
