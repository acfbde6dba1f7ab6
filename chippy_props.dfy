/**
 * What `chippy_init` and `chippy_step` promise, proved about the functions
 * of module ChippySem: the effect of initialisation, the fetch and status
 * code of a step, and the effect of each instruction family on the whole
 * machine state.
 */
module ChippyProps {
  import opened Bytes
  import opened ChippyH
  import opened ChippySem
  import ChippyDraw

  // ---------------------------------------------------------------------
  // Decoding

  /** The instruction with the four nibbles p, x, y and n. */
  function Encode(p: nat, x: nat, y: nat, n: nat): (op: u16)
    requires p < 16 && x < 16 && y < 16 && n < 16
  {
    p * 0x1000 + x * 0x100 + y * 0x10 + n
  }

  /** The field macros take an instruction apart into its nibbles, and KK and NNN are its low byte and low 12 bits. */
  lemma DecodeEncode(op: u16)
    ensures Encode(P(op), X(op), Y(op), N(op)) == op
    ensures KK(op) == Y(op) * 0x10 + N(op)
    ensures NNN(op) == X(op) * 0x100 + KK(op)
  {
    var n, q1 := op % 0x10, op / 0x10;
    var y, q2 := q1 % 0x10, q1 / 0x10;
    var x, p := q2 % 0x10, q2 / 0x10;
    assert op == 0x1000 * p + 0x100 * x + 0x10 * y + n;
    assert P(op) == p;
    assert op / 0x100 == 0x10 * p + x;
    assert KK(op) == 0x10 * y + n;
    assert NNN(op) == 0x100 * x + 0x10 * y + n;
  }

  /** Each field macro recovers its own nibble of an encoded instruction. */
  lemma EncodeDecode(p: nat, x: nat, y: nat, n: nat)
    requires p < 16 && x < 16 && y < 16 && n < 16
    ensures var op := Encode(p, x, y, n);
      P(op) == p && X(op) == x && Y(op) == y && N(op) == n
  {
    var op := Encode(p, x, y, n);
    assert op / 0x10 == 0x100 * p + 0x10 * x + y;
    assert op / 0x100 == 0x10 * p + x;
  }

  // ---------------------------------------------------------------------
  // chippy_init

  /**
   * After `chippy_init` the font occupies the first 80 bytes of memory,
   * the rest of memory is as before, the stack is zero, `pc` is
   * PROGRAM_START, `sp` is 0 and no key wait is pending; the registers,
   * the index, the display, the keypad and the timers are untouched.
   */
  lemma InitEffect(s: State)
    requires WellFormed(s)
    ensures var r := Init(s);
      && r.ram[..|Fontset|] == Fontset
      && r.ram[|Fontset|..] == s.ram[|Fontset|..]
      && (forall j :: 0 <= j < STACK_SIZE ==> r.stack[j] == 0)
      && r.pc == PROGRAM_START && r.sp == 0 && r.waitKey == -1
      && r.V == s.V && r.I == s.I && r.gfx == s.gfx && r.key == s.key
      && r.dt == s.dt && r.st == s.st
  {
    var r := Init(s);
    assert r.ram[..|Fontset|] == Fontset;
  }

  /** After `chippy_init` the glyph of each hexadecimal digit d is at `ram[5d..5d+5]`. */
  lemma InitLoadsGlyphs(s: State, d: nat)
    requires WellFormed(s) && d < 16
    ensures Init(s).ram[5 * d .. 5 * d + 5] == FontGlyph(d)
  {
    GlyphLocation(d);
    var r := Init(s);
    assert r.ram[..|Fontset|] == Fontset;
    assert r.ram[5 * d .. 5 * d + 5] == r.ram[..|Fontset|][5 * d .. 5 * d + 5];
  }

  /** `chippy_init` may be called again to reinitialise: a second call changes nothing. */
  lemma InitIdempotent(s: State)
    requires WellFormed(s)
    ensures Init(Init(s)) == Init(s)
  {
    var r := Init(s);
    assert r.ram[|Fontset|..] == s.ram[|Fontset|..];
    assert Init(r).ram == r.ram;
  }

  // ---------------------------------------------------------------------
  // chippy_step: fetch, pc advance and status

  /** The state once a step has fetched its instruction: no key wait pending and `pc` two bytes on. */
  function Advanced(s: State): (t: State)
    requires WellFormed(s)
    ensures WellFormed(t)
  {
    s.(pc := Wrap16(s.pc as int + 2), waitKey := -1)
  }

  /**
   * A step reads the instruction at `pc` big-endian, clears any pending
   * key wait, advances `pc` by 2 modulo 2^16 and only then executes. It
   * always returns 0, because every one of the 16 instruction families has
   * a case and the failure branch is never taken.
   */
  lemma StepFetchesThenExecutes(s: State, rnd: byte)
    requires WellFormed(s) && CanStep(s)
    ensures Fetch(s) == s.ram[s.pc] as int * 0x100 + s.ram[s.pc + 1]
    ensures OperandsInRange(Advanced(s), Fetch(s))
    ensures Step(s, rnd) == Execute(Advanced(s), Fetch(s), rnd)
    ensures Step(s, rnd).status == 0
  {
    assert Draw(Advanced(s), Fetch(s)) == Draw(s, Fetch(s));
  }

  /** The status code is always one of the two codes of the header, 0 for success or 1 for failure. */
  lemma StepStatusCode(s: State, rnd: byte)
    requires WellFormed(s) && CanStep(s)
    ensures Step(s, rnd).status == 0 || Step(s, rnd).status == 1
  {
    StepFetchesThenExecutes(s, rnd);
  }

  // ---------------------------------------------------------------------
  // The 0 family, jumps and calls

  /** 0xE0 (CLS): every display cell becomes 0; nothing else changes but `pc` and the key wait. */
  lemma StepClearScreen(s: State, rnd: byte)
    requires WellFormed(s) && CanStep(s)
    requires P(Fetch(s)) == 0x0 && KK(Fetch(s)) == 0xE0
    ensures Step(s, rnd).next == Advanced(s).(gfx := seq(SCREEN_W * SCREEN_H, _ => 0))
    ensures forall j :: 0 <= j < SCREEN_W * SCREEN_H ==> Step(s, rnd).next.gfx[j] == 0
  {
    StepFetchesThenExecutes(s, rnd);
  }

  /** 0xEE (RET): pops the return address; `pc` becomes the top stack entry itself. */
  lemma StepReturn(s: State, rnd: byte)
    requires WellFormed(s) && CanStep(s)
    requires P(Fetch(s)) == 0x0 && KK(Fetch(s)) == 0xEE
    ensures 1 <= s.sp <= STACK_SIZE
    ensures Step(s, rnd).next == Advanced(s).(sp := s.sp - 1, pc := s.stack[s.sp - 1])
  {
    StepFetchesThenExecutes(s, rnd);
  }

  /** Any other instruction of the 0 family (0nnn other than CLS and RET) only advances `pc`. */
  lemma StepSystemIgnored(s: State, rnd: byte)
    requires WellFormed(s) && CanStep(s)
    requires P(Fetch(s)) == 0x0 && KK(Fetch(s)) != 0xE0 && KK(Fetch(s)) != 0xEE
    ensures Step(s, rnd).next == Advanced(s)
  {
    StepFetchesThenExecutes(s, rnd);
  }

  /** 1nnn (JP): `pc` becomes nnn. */
  lemma StepJump(s: State, rnd: byte)
    requires WellFormed(s) && CanStep(s) && P(Fetch(s)) == 0x1
    ensures Step(s, rnd).next == Advanced(s).(pc := NNN(Fetch(s)))
  {
    StepFetchesThenExecutes(s, rnd);
  }

  /**
   * 2nnn (CALL): stores the address of the next instruction, `pc + 2`, in
   * `stack[sp]`, increments `sp` and jumps to nnn.
   */
  lemma StepCall(s: State, rnd: byte)
    requires WellFormed(s) && CanStep(s) && P(Fetch(s)) == 0x2
    ensures s.sp < STACK_SIZE
    ensures Step(s, rnd).next
            == Advanced(s).(stack := s.stack[s.sp := Wrap16(s.pc as int + 2)], sp := s.sp + 1, pc := NNN(Fetch(s)))
  {
    StepFetchesThenExecutes(s, rnd);
  }

  /**
   * A CALL whose target holds a RET comes back to the instruction after
   * the CALL, with `sp` as it was before the CALL.
   */
  lemma CallThenReturn(s: State, rnd1: byte, rnd2: byte)
    requires WellFormed(s) && CanStep(s) && P(Fetch(s)) == 0x2
    requires CanStep(Step(s, rnd1).next)
    requires var t := Step(s, rnd1).next; P(Fetch(t)) == 0x0 && KK(Fetch(t)) == 0xEE
    ensures var u := Step(Step(s, rnd1).next, rnd2).next;
      u.pc == Wrap16(s.pc as int + 2) && u.sp == s.sp
  {
    StepCall(s, rnd1);
    var t := Step(s, rnd1).next;
    StepReturn(t, rnd2);
  }

  /** Bnnn (JP V0): `pc` becomes nnn + V0, which always fits in 16 bits. */
  lemma StepJumpOffset(s: State, rnd: byte)
    requires WellFormed(s) && CanStep(s) && P(Fetch(s)) == 0xB
    ensures Step(s, rnd).next == Advanced(s).(pc := NNN(Fetch(s)) + s.V[0])
    ensures Step(s, rnd).next.pc < RAM_SIZE + 0x100
  {
    StepFetchesThenExecutes(s, rnd);
  }

  // ---------------------------------------------------------------------
  // Skips

  /**
   * 3xkk, 4xkk, 5xy_ and 9xy_ skip the next instruction, so that `pc` ends
   * 4 bytes on, exactly when Vx equals kk, Vx differs from kk, Vx equals Vy
   * and Vx differs from Vy respectively; otherwise `pc` ends 2 bytes on.
   * Nothing else changes.
   */
  lemma StepSkip(s: State, rnd: byte)
    requires WellFormed(s) && CanStep(s)
    requires P(Fetch(s)) in {0x3, 0x4, 0x5, 0x9}
    ensures var op := Fetch(s);
      var taken :=
        match P(op)
        case 0x3 => s.V[X(op)] == KK(op)
        case 0x4 => s.V[X(op)] != KK(op)
        case 0x5 => s.V[X(op)] == s.V[Y(op)]
        case _ => s.V[X(op)] != s.V[Y(op)];
      Step(s, rnd).next == Advanced(s).(pc := Wrap16(s.pc as int + if taken then 4 else 2))
  {
    StepFetchesThenExecutes(s, rnd);
    var t := Advanced(s);
    assert Wrap16(t.pc as int + 2) == Wrap16(s.pc as int + 4);
  }

  // ---------------------------------------------------------------------
  // Register loads and arithmetic

  /** 6xkk (LD): Vx becomes kk. */
  lemma StepLoadByte(s: State, rnd: byte)
    requires WellFormed(s) && CanStep(s) && P(Fetch(s)) == 0x6
    ensures Step(s, rnd).next == Advanced(s).(V := s.V[X(Fetch(s)) := KK(Fetch(s))])
  {
    StepFetchesThenExecutes(s, rnd);
  }

  /** 7xkk (ADD): Vx becomes Vx + kk modulo 256, and VF is not touched by the carry. */
  lemma StepAddByte(s: State, rnd: byte)
    requires WellFormed(s) && CanStep(s) && P(Fetch(s)) == 0x7
    ensures var x := X(Fetch(s));
      Step(s, rnd).next == Advanced(s).(V := s.V[x := (s.V[x] as int + KK(Fetch(s))) % 0x100])
  {
    StepFetchesThenExecutes(s, rnd);
  }

  /** 8xyN: the registers become `Alu(V, x, y, N)`; nothing else changes. */
  lemma StepArithmetic(s: State, rnd: byte)
    requires WellFormed(s) && CanStep(s) && P(Fetch(s)) == 0x8
    ensures var op := Fetch(s);
      Step(s, rnd).next == Advanced(s).(V := Alu(s.V, X(op), Y(op), N(op)))
  {
    StepFetchesThenExecutes(s, rnd);
  }

  /** 8xy1, 8xy2 and 8xy3 set Vx to Vy, Vx | Vy and Vx ^ Vy, and leave every other register alone. */
  lemma AluLogic(v: seq<byte>, x: nat, y: nat)
    requires |v| == REGISTERS && x < REGISTERS && y < REGISTERS
    ensures Alu(v, x, y, 0x1) == v[x := v[y]]
    ensures Alu(v, x, y, 0x2) == v[x := Or8(v[x], v[y])]
    ensures Alu(v, x, y, 0x3) == v[x := Xor8(v[x], v[y])]
  {
  }

  /** Low nibbles 0, 8 to D and F of the 8 family have no case and change nothing. */
  lemma AluUnlisted(v: seq<byte>, x: nat, y: nat, n: nat)
    requires |v| == REGISTERS && x < REGISTERS && y < REGISTERS
    requires n !in {0x1, 0x2, 0x3, 0x4, 0x5, 0x6, 0x7, 0xE}
    ensures Alu(v, x, y, n) == v
  {
  }

  /**
   * 8xy4, 8xy5 and 8xy7 for x, y other than VF: VF is the carry of
   * Vx + Vy, the "not borrow" Vx > Vy (0 when they are equal), and
   * Vy > Vx; Vx is the sum or difference modulo 256; every other register
   * is unchanged.
   */
  lemma AluAddSub(v: seq<byte>, x: nat, y: nat)
    requires |v| == REGISTERS && x < REGISTERS && y < REGISTERS && x != VF && y != VF
    ensures var r := Alu(v, x, y, 0x4);
      && r[VF] == (if v[x] as int + v[y] > 255 then 1 else 0) && r[x] == (v[x] as int + v[y]) % 0x100
      && (forall j :: 0 <= j < REGISTERS && j != x && j != VF ==> r[j] == v[j])
    ensures var r := Alu(v, x, y, 0x5);
      && r[VF] == (if v[x] > v[y] then 1 else 0) && r[x] == (v[x] as int - v[y]) % 0x100
      && (forall j :: 0 <= j < REGISTERS && j != x && j != VF ==> r[j] == v[j])
    ensures var r := Alu(v, x, y, 0x7);
      && r[VF] == (if v[y] > v[x] then 1 else 0) && r[x] == (v[y] as int - v[x]) % 0x100
      && (forall j :: 0 <= j < REGISTERS && j != x && j != VF ==> r[j] == v[j])
  {
  }

  /** `a & (1 << k)` is nonzero exactly when `a`, a number below `2^(k+1)`, is at least `2^k`. */
  lemma {:induction false} AndTopBit(a: nat, k: nat)
    requires a < 2 * Pow2(k)
    ensures (Bitwise(And, a, Pow2(k)) != 0) == (a >= Pow2(k))
    decreases k
  {
    if k == 0 {
      BitwiseZero(And, a / 2);
    } else {
      AndTopBit(a / 2, k - 1);
    }
  }

  /** `a & 1` is the least significant bit of a byte, and `(a & 0x80) != 0` tests the most significant one. */
  lemma LowAndHighBit(a: byte)
    ensures And8(a, 1) == a % 2
    ensures (And8(a, 0x80) != 0) == (a >= 0x80)
  {
    BitwiseAndPow2(a, 0);
    assert Pow2(7) == 0x80;
    AndTopBit(a, 7);
  }

  /**
   * 8xy6 and 8xyE for x other than VF: VF is the bit shifted out (the
   * lowest for SHR, the highest for SHL) and Vx becomes Vx / 2 or
   * 2 * Vx modulo 256; every other register is unchanged.
   */
  lemma AluShift(v: seq<byte>, x: nat, y: nat)
    requires |v| == REGISTERS && x < REGISTERS && y < REGISTERS && x != VF
    ensures var r := Alu(v, x, y, 0x6);
      && r[VF] == v[x] % 2 && r[x] == v[x] / 2
      && (forall j :: 0 <= j < REGISTERS && j != x && j != VF ==> r[j] == v[j])
    ensures var r := Alu(v, x, y, 0xE);
      && r[VF] == v[x] / 0x80 && r[x] == (2 * v[x] as int) % 0x100
      && (forall j :: 0 <= j < REGISTERS && j != x && j != VF ==> r[j] == v[j])
  {
    LowAndHighBit(v[x]);
  }

  /**
   * VF is written before Vx. With x = VF the flag is overwritten by the
   * result, which for 8Fy4 is computed from the flag: VF ends as
   * carry + Vy modulo 256. With y = VF, 8xF4 adds the fresh carry rather
   * than the old VF.
   */
  lemma AluFlagFirst(v: seq<byte>, x: nat, y: nat)
    requires |v| == REGISTERS && x < REGISTERS && y < REGISTERS && x != y
    ensures var carry := if v[x] as int + v[y] > 255 then 1 else 0;
      x == VF ==> Alu(v, x, y, 0x4)[VF] == (carry + v[y] as int) % 0x100
    ensures var carry := if v[x] as int + v[y] > 255 then 1 else 0;
      y == VF ==> Alu(v, x, y, 0x4)[x] == (v[x] as int + carry) % 0x100 && Alu(v, x, y, 0x4)[VF] == carry
  {
  }

  // ---------------------------------------------------------------------
  // Annn, Cxkk, Dxyn

  /** Annn (LD I): I becomes nnn. */
  lemma StepLoadIndex(s: State, rnd: byte)
    requires WellFormed(s) && CanStep(s) && P(Fetch(s)) == 0xA
    ensures Step(s, rnd).next == Advanced(s).(I := NNN(Fetch(s)))
  {
    StepFetchesThenExecutes(s, rnd);
  }

  /** `a & b` never exceeds b. */
  lemma {:induction false} BitwiseAndBelow(a: nat, b: nat)
    ensures Bitwise(And, a, b) <= b
    decreases a + b
  {
    if !(a == 0 && b == 0) {
      BitwiseAndBelow(a / 2, b / 2);
    }
  }

  /** Cxkk (RND): Vx becomes the random byte masked by kk, so it never exceeds kk. */
  lemma StepRandom(s: State, rnd: byte)
    requires WellFormed(s) && CanStep(s) && P(Fetch(s)) == 0xC
    ensures var op := Fetch(s);
      Step(s, rnd).next == Advanced(s).(V := s.V[X(op) := And8(rnd, KK(op))])
    ensures Step(s, rnd).next.V[X(Fetch(s))] <= KK(Fetch(s))
  {
    StepFetchesThenExecutes(s, rnd);
    BitwiseAndBelow(rnd, KK(Fetch(s)));
  }

  /**
   * Dxyn changes only the display, VF and `pc` (and the key wait): every
   * register other than VF keeps its value and VF keeps all the bits it
   * had. With x and y other than VF, bit 0 of VF ends set exactly when it
   * was set before or some pixel of the sprite lands on a lit cell.
   */
  lemma StepDraw(s: State, rnd: byte)
    requires WellFormed(s) && CanStep(s) && P(Fetch(s)) == 0xD
    ensures var d := Draw(s, Fetch(s)).value;
      Step(s, rnd).next == Advanced(s).(V := d.V, gfx := d.gfx)
    ensures var r := Step(s, rnd).next;
      && (forall j :: 0 <= j < REGISTERS && j != VF ==> r.V[j] == s.V[j])
      && r.V[VF] / 2 == s.V[VF] / 2 && r.V[VF] % 2 >= s.V[VF] % 2
    ensures var op := Fetch(s);
      X(op) != VF && Y(op) != VF ==>
        (Step(s, rnd).next.V[VF] % 2 == 1
         <==> s.V[VF] % 2 == 1 || ChippyDraw.Collides(s.V[X(op)], s.V[Y(op)], s.gfx, s.ram, s.I, N(op)))
  {
    var op := Fetch(s);
    StepFetchesThenExecutes(s, rnd);
    assert Draw(Advanced(s), op) == Draw(s, op);
    ChippyDraw.DrawKeepsRegisters(Canvas(s.V, s.gfx), s.ram, s.I, X(op), Y(op), N(op), 0, 0);
    if X(op) != VF && Y(op) != VF {
      ChippyDraw.DrawCollision(Canvas(s.V, s.gfx), s.ram, s.I, X(op), Y(op), N(op), 0, 0);
    }
  }

  /**
   * Executing the same Dxyn twice, with x and y other than VF, is in range
   * the second time and restores the display; when the sprite has a set
   * bit, the second execution reports a collision in bit 0 of VF.
   */
  lemma ExecuteDrawTwice(s: State, op: u16, rnd1: byte, rnd2: byte)
    requires WellFormed(s) && P(op) == 0xD && X(op) != VF && Y(op) != VF
    requires OperandsInRange(s, op)
    ensures OperandsInRange(Execute(s, op, rnd1).next, op)
    ensures Execute(Execute(s, op, rnd1).next, op, rnd2).next.gfx == s.gfx
    ensures ChippyDraw.HasSetPixel(s.ram, s.I, N(op))
            ==> Execute(Execute(s, op, rnd1).next, op, rnd2).next.V[VF] % 2 == 1
  {
    var t := Execute(s, op, rnd1).next;
    ChippyDraw.DrawTwiceRestores(Canvas(s.V, s.gfx), s.ram, s.I, X(op), Y(op), N(op));
    assert Canvas(t.V, t.gfx) == Draw(s, op).value;
    if ChippyDraw.HasSetPixel(s.ram, s.I, N(op)) {
      ChippyDraw.DrawTwiceCollides(Canvas(s.V, s.gfx), s.ram, s.I, X(op), Y(op), N(op));
    }
  }

  // ---------------------------------------------------------------------
  // The E and F families and the key wait

  /** Every Ex__ instruction only advances `pc`: its cases are masked out. */
  lemma StepKeyIgnored(s: State, rnd: byte)
    requires WellFormed(s) && CanStep(s) && P(Fetch(s)) == 0xE
    ensures Step(s, rnd).next == Advanced(s)
  {
    StepFetchesThenExecutes(s, rnd);
  }

  /**
   * In the F family only the low nibble counts: F?_7 loads the delay
   * timer into Vx, F?_A records x as the register a key wait stores into,
   * and every other Fx__ only advances `pc`.
   */
  lemma StepMisc(s: State, rnd: byte)
    requires WellFormed(s) && CanStep(s) && P(Fetch(s)) == 0xF
    ensures var op := Fetch(s);
      Step(s, rnd).next
      == if N(op) == 0x7 then Advanced(s).(V := s.V[X(op) := s.dt])
         else if N(op) == 0xA then Advanced(s).(waitKey := X(op))
         else Advanced(s)
  {
    StepFetchesThenExecutes(s, rnd);
  }

  /**
   * A pending key wait lasts one step: after any step, `waitKey` is x if
   * the instruction was F?_A and -1 otherwise.
   */
  lemma StepKeyWait(s: State, rnd: byte)
    requires WellFormed(s) && CanStep(s)
    ensures var op := Fetch(s);
      Step(s, rnd).next.waitKey == if P(op) == 0xF && N(op) == 0xA then X(op) else -1
  {
    StepFetchesThenExecutes(s, rnd);
  }

  /** No step changes the memory, the keypad or the timers. */
  lemma StepFrame(s: State, rnd: byte)
    requires WellFormed(s) && CanStep(s)
    ensures var r := Step(s, rnd).next;
      r.ram == s.ram && r.key == s.key && r.dt == s.dt && r.st == s.st
  {
    StepFetchesThenExecutes(s, rnd);
  }
}
