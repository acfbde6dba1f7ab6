/**
 * The opcode scenarios of libchippy's test suite as lemmas. Each starts
 * from `chippy_init` applied to an arbitrary machine (memory the test does
 * not set may hold anything), stores the instruction at PROGRAM_START and
 * sets the registers the scenario relies on explicitly, including those
 * the test expects to be zero.
 */
module ChippyTests {
  import opened Bytes
  import opened ChippyH
  import opened ChippySem
  import opened ChippyProps

  /** The test helper that stores `op` big-endian at `addr`. */
  function Insert(s: State, op: u16, addr: nat): (r: State)
    requires WellFormed(s) && addr + 1 < RAM_SIZE
    ensures WellFormed(r)
    ensures r.ram[addr] as int * 0x100 + r.ram[addr + 1] == op
  {
    s.(ram := s.ram[addr := op / 0x100][addr + 1 := op % 0x100])
  }

  /** A freshly initialised machine with `op` at PROGRAM_START and registers `regs`. */
  function Setup(s0: State, op: u16, regs: seq<byte>): (s: State)
    requires WellFormed(s0) && |regs| == REGISTERS
    ensures WellFormed(s) && s.pc == PROGRAM_START && s.V == regs
    ensures CanStep(s) <==> OperandsInRange(s, op)
    ensures s.pc + 1 < RAM_SIZE && Fetch(s) == op
  {
    Insert(Init(s0), op, PROGRAM_START).(V := regs)
  }

  /** test_cls: with every display cell set to 1, CLS clears them all. */
  lemma ClearScreenScenario(s0: State, rnd: byte)
    requires WellFormed(s0)
    ensures var s := Setup(s0, 0x00E0, s0.V).(gfx := seq(SCREEN_W * SCREEN_H, _ => 1));
      CanStep(s) && forall i :: 0 <= i < SCREEN_W * SCREEN_H ==> Step(s, rnd).next.gfx[i] == 0
  {
    var s := Setup(s0, 0x00E0, s0.V).(gfx := seq(SCREEN_W * SCREEN_H, _ => 1));
    assert Fetch(s) == 0x00E0;
    StepClearScreen(s, rnd);
  }

  /** test_ret: with 0x210, 0x220 and 0x230 pushed, RET goes to 0x230 and leaves two entries. */
  lemma ReturnScenario(s0: State, rnd: byte)
    requires WellFormed(s0)
    ensures var s1 := Setup(s0, 0x00EE, s0.V);
      var s := s1.(stack := s1.stack[0 := 0x210][1 := 0x220][2 := 0x230], sp := 3);
      CanStep(s) && Step(s, rnd).next.pc == 0x230 && Step(s, rnd).next.sp == 2
  {
    var s1 := Setup(s0, 0x00EE, s0.V);
    var s := s1.(stack := s1.stack[0 := 0x210][1 := 0x220][2 := 0x230], sp := 3);
    assert Fetch(s) == 0x00EE;
    StepReturn(s, rnd);
  }

  /** test_jp: 0x1234 jumps to 0x234. */
  lemma JumpScenario(s0: State, rnd: byte)
    requires WellFormed(s0)
    ensures var s := Setup(s0, 0x1234, s0.V);
      CanStep(s) && Step(s, rnd).next.pc == 0x234
  {
    StepJump(Setup(s0, 0x1234, s0.V), rnd);
  }

  /** test_call: with one entry pushed, 0x2345 pushes a second and jumps to 0x345. */
  lemma CallScenario(s0: State, rnd: byte)
    requires WellFormed(s0)
    ensures var s1 := Setup(s0, 0x2345, s0.V);
      var s := s1.(stack := s1.stack[0 := 0x234], sp := 1);
      && CanStep(s) && Step(s, rnd).next.sp == 2 && Step(s, rnd).next.pc == 0x345
      && Step(s, rnd).next.stack[1] == PROGRAM_START + 2
  {
    var s1 := Setup(s0, 0x2345, s0.V);
    var s := s1.(stack := s1.stack[0 := 0x234], sp := 1);
    assert Fetch(s) == 0x2345;
    StepCall(s, rnd);
  }

  /** test_se_xkk, test_sne_xkk and test_se_xy: each condition holds, so `pc` ends at 0x204. */
  lemma SkipScenarios(s0: State, rnd: byte)
    requires WellFormed(s0)
    ensures var s := Setup(s0, 0x3212, s0.V[2 := 0x12]);
      CanStep(s) && Step(s, rnd).next.pc == 0x204
    ensures var s := Setup(s0, 0x4299, s0.V[2 := 0x12]);
      CanStep(s) && Step(s, rnd).next.pc == 0x204
    ensures var s := Setup(s0, 0x5230, s0.V[2 := 0x12][3 := 0x12]);
      CanStep(s) && Step(s, rnd).next.pc == 0x204
  {
    StepSkip(Setup(s0, 0x3212, s0.V[2 := 0x12]), rnd);
    StepSkip(Setup(s0, 0x4299, s0.V[2 := 0x12]), rnd);
    StepSkip(Setup(s0, 0x5230, s0.V[2 := 0x12][3 := 0x12]), rnd);
  }

  /** test_ld_kk and test_add_xkk: 0x6230 loads 0x30 into V2; 0x7120 adds 0x20 to a zero V1. */
  lemma LoadAddScenarios(s0: State, rnd: byte)
    requires WellFormed(s0)
    ensures var s := Setup(s0, 0x6230, s0.V);
      CanStep(s) && Step(s, rnd).next.V[2] == 0x30
    ensures var s := Setup(s0, 0x7120, s0.V[1 := 0]);
      CanStep(s) && Step(s, rnd).next.V[1] == 0x20
  {
    StepLoadByte(Setup(s0, 0x6230, s0.V), rnd);
    StepAddByte(Setup(s0, 0x7120, s0.V[1 := 0]), rnd);
  }

  /** 5 | 3 and 5 ^ 3. */
  lemma OrXorValues()
    ensures Or8(5, 3) == 7 && Xor8(5, 3) == 6
  {
    assert Bitwise(Or, 0, 0) == 0 && Bitwise(Xor, 0, 0) == 0;
    assert Bitwise(Or, 1, 0) == 1 && Bitwise(Xor, 1, 0) == 1;
    assert Bitwise(Or, 2, 1) == 3 && Bitwise(Xor, 2, 1) == 3;
    assert Bitwise(Or, 5, 3) == 7;
    assert Bitwise(Xor, 1, 0) == 1 && Bitwise(Xor, 2, 1) == 3 && Bitwise(Xor, 5, 3) == 6;
  }

  /** test_ld_xy, test_or and test_xor: 8121 copies V2 = 3, 8122 ORs 5 | 3 = 7, 8123 XORs 5 ^ 3 = 6. */
  lemma LogicScenarios(s0: State, rnd: byte)
    requires WellFormed(s0)
    ensures var s := Setup(s0, 0x8121, s0.V[2 := 3]);
      CanStep(s) && Step(s, rnd).next.V[1] == 3
    ensures var s := Setup(s0, 0x8122, s0.V[1 := 5][2 := 3]);
      CanStep(s) && Step(s, rnd).next.V[1] == 7
    ensures var s := Setup(s0, 0x8123, s0.V[1 := 5][2 := 3]);
      CanStep(s) && Step(s, rnd).next.V[1] == 6
  {
    OrXorValues();
    StepArithmetic(Setup(s0, 0x8121, s0.V[2 := 3]), rnd);
    StepArithmetic(Setup(s0, 0x8122, s0.V[1 := 5][2 := 3]), rnd);
    StepArithmetic(Setup(s0, 0x8123, s0.V[1 := 5][2 := 3]), rnd);
  }

  /**
   * The second half of the two-step tests: the machine after the first
   * step, with V1 and V2 set to `v1` and `v2` and the instruction stored
   * again at 0x202. The shift tests set only V1; they pass V2's value
   * from before the first step, which that step does not change.
   */
  function Again(s: State, op: u16, v1: byte, v2: byte): (r: State)
    requires WellFormed(s) && s.pc == PROGRAM_START + 2
    ensures WellFormed(r) && r.pc + 1 < RAM_SIZE && Fetch(r) == op
    ensures CanStep(r) <==> OperandsInRange(r, op)
  {
    Insert(s, op, PROGRAM_START + 2).(V := s.V[1 := v1][2 := v2])
  }

  /** test_add_xy: 5 + 3 = 8 with VF 0, then 200 + 200 = 144 with VF 1. */
  lemma AddScenario(s0: State, rnd: byte)
    requires WellFormed(s0)
    ensures var s := Setup(s0, 0x8124, s0.V[1 := 5][2 := 3]);
      && CanStep(s) && Step(s, rnd).next.V[1] == 8 && Step(s, rnd).next.V[VF] == 0
      && var t := Again(Step(s, rnd).next, 0x8124, 200, 200);
         CanStep(t) && Step(t, rnd).next.V[1] == 144 && Step(t, rnd).next.V[VF] == 1
  {
    var s := Setup(s0, 0x8124, s0.V[1 := 5][2 := 3]);
    StepArithmetic(s, rnd);
    StepArithmetic(Again(Step(s, rnd).next, 0x8124, 200, 200), rnd);
  }

  /** test_sub_xy: 5 - 3 = 2 with VF 1, then 3 - 5 = 254 with VF 0. */
  lemma SubScenario(s0: State, rnd: byte)
    requires WellFormed(s0)
    ensures var s := Setup(s0, 0x8125, s0.V[1 := 5][2 := 3]);
      && CanStep(s) && Step(s, rnd).next.V[1] == 2 && Step(s, rnd).next.V[VF] == 1
      && var t := Again(Step(s, rnd).next, 0x8125, 3, 5);
         CanStep(t) && Step(t, rnd).next.V[1] == 254 && Step(t, rnd).next.V[VF] == 0
  {
    var s := Setup(s0, 0x8125, s0.V[1 := 5][2 := 3]);
    StepArithmetic(s, rnd);
    StepArithmetic(Again(Step(s, rnd).next, 0x8125, 3, 5), rnd);
  }

  /** test_subn: 5 - 3 = 2 with VF 1, then 3 - 5 = 254 with VF 0, as Vy - Vx. */
  lemma SubnScenario(s0: State, rnd: byte)
    requires WellFormed(s0)
    ensures var s := Setup(s0, 0x8127, s0.V[1 := 3][2 := 5]);
      && CanStep(s) && Step(s, rnd).next.V[1] == 2 && Step(s, rnd).next.V[VF] == 1
      && var t := Again(Step(s, rnd).next, 0x8127, 5, 3);
         CanStep(t) && Step(t, rnd).next.V[1] == 254 && Step(t, rnd).next.V[VF] == 0
  {
    var s := Setup(s0, 0x8127, s0.V[1 := 3][2 := 5]);
    StepArithmetic(s, rnd);
    StepArithmetic(Again(Step(s, rnd).next, 0x8127, 5, 3), rnd);
  }

  /** test_shr: 23 >> 1 = 11 with VF 1, then 22 >> 1 = 11 with VF 0. */
  lemma ShiftRightScenario(s0: State, rnd: byte)
    requires WellFormed(s0)
    ensures var s := Setup(s0, 0x8106, s0.V[1 := 23]);
      && CanStep(s) && Step(s, rnd).next.V[1] == 11 && Step(s, rnd).next.V[VF] == 1
      && var t := Again(Step(s, rnd).next, 0x8106, 22, s0.V[2]);
         CanStep(t) && Step(t, rnd).next.V[1] == 11 && Step(t, rnd).next.V[VF] == 0
  {
    var s := Setup(s0, 0x8106, s0.V[1 := 23]);
    StepArithmetic(s, rnd);
    AluShift(s.V, 1, 0);
    var t := Again(Step(s, rnd).next, 0x8106, 22, s0.V[2]);
    StepArithmetic(t, rnd);
    AluShift(t.V, 1, 0);
  }

  /** A step of 810E on V1 = a: V1 becomes 2a modulo 256 and VF the bit shifted out. */
  lemma ShiftLeftStep(t: State, rnd: byte, a: byte)
    requires WellFormed(t) && CanStep(t) && Fetch(t) == 0x810E && t.V[1] == a
    ensures Step(t, rnd).next.V[1] == (2 * a) % 0x100 && Step(t, rnd).next.V[VF] == a / 0x80
  {
    StepArithmetic(t, rnd);
    AluShift(t.V, 1, 0);
  }

  /** test_shl: 23 << 1 = 46 with VF 0, then 151 << 1 = 46 modulo 256 with VF 1. */
  lemma ShiftLeftScenario(s0: State, rnd: byte)
    requires WellFormed(s0)
    ensures var s := Setup(s0, 0x810E, s0.V[1 := 23]);
      && CanStep(s) && Step(s, rnd).next.V[1] == 46 && Step(s, rnd).next.V[VF] == 0
      && var t := Again(Step(s, rnd).next, 0x810E, 151, s0.V[2]);
         CanStep(t) && Step(t, rnd).next.V[1] == 46 && Step(t, rnd).next.V[VF] == 1
  {
    var s := Setup(s0, 0x810E, s0.V[1 := 23]);
    ShiftLeftStep(s, rnd, 23);
    var r := Step(s, rnd).next;
    ShiftLeftStep(Again(r, 0x810E, 151, s0.V[2]), rnd, 151);
  }
}
