/**
 * The meaning of libchippy's `chippy_init` and `chippy_step` as functions
 * on machine values. The class in module Chippy is proved to compute
 * exactly these functions; module ChippyProps proves what they promise.
 */
module ChippySem {
  import opened Bytes
  import opened ChippyH

  datatype Option<T> = None | Some(value: T)

  // ---------------------------------------------------------------------
  // Decoding: the field macros NNN, KK, N, X, Y and P.

  /** Instruction family, `opcode >> 12`. */
  function P(op: u16): (r: nat)
    ensures r < 16
  {
    op / 0x1000
  }

  /** First register operand, `(opcode >> 8) & 0xF`. */
  function X(op: u16): (r: nat)
    ensures r < REGISTERS
  {
    op / 0x100 % 0x10
  }

  /** Second register operand, `(opcode >> 4) & 0xF`. */
  function Y(op: u16): (r: nat)
    ensures r < REGISTERS
  {
    op / 0x10 % 0x10
  }

  /** Low nibble, `opcode & 0xF`. */
  function N(op: u16): (r: nat)
    ensures r < 16
  {
    op % 0x10
  }

  /** Low byte, `opcode & 0xFF`. */
  function KK(op: u16): (r: byte)
  {
    op % 0x100
  }

  /** Address operand, `opcode & 0xFFF`. */
  function NNN(op: u16): (r: nat)
    ensures r < RAM_SIZE
  {
    op % 0x1000
  }

  /** The 16-bit instruction at `pc`: the byte at `pc` is the high half. */
  function Fetch(s: State): (op: u16)
    requires WellFormed(s) && s.pc + 1 < RAM_SIZE
    ensures P(op) * 0x10 + X(op) == s.ram[s.pc]
    ensures KK(op) == s.ram[s.pc + 1]
  {
    s.ram[s.pc] as int * 0x100 + s.ram[s.pc + 1]
  }

  // ---------------------------------------------------------------------
  // chippy_init

  /**
   * `chippy_init`: copy the font to the start of memory, clear the stack,
   * start at PROGRAM_START with an empty stack and no pending key wait.
   */
  function Init(s: State): (r: State)
    requires WellFormed(s)
    ensures WellFormed(r)
  {
    s.(ram := Fontset + s.ram[|Fontset|..],
       stack := seq(STACK_SIZE, _ => 0),
       pc := PROGRAM_START,
       sp := 0,
       waitKey := -1)
  }

  // ---------------------------------------------------------------------
  // The 8xyN arithmetic and logic instructions.

  /**
   * The registers after 8xyN. As in the source, VF is written first and
   * the result is computed from the registers as they are afterwards.
   * Low nibble 1 assigns, 2 ORs and 3 XORs; 0 and the unlisted nibbles do
   * nothing.
   */
  function Alu(v: seq<byte>, x: nat, y: nat, n: nat): (r: seq<byte>)
    requires |v| == REGISTERS && x < REGISTERS && y < REGISTERS
    ensures |r| == REGISTERS
  {
    match n
    case 0x1 => v[x := v[y]]
    case 0x2 => v[x := Or8(v[x], v[y])]
    case 0x3 => v[x := Xor8(v[x], v[y])]
    case 0x4 =>
      var f := v[VF := if v[x] as int + v[y] > 255 then 1 else 0];
      f[x := Wrap8(f[x] as int + f[y])]
    case 0x5 =>
      var f := v[VF := if v[x] > v[y] then 1 else 0];
      f[x := Wrap8(f[x] as int - f[y])]
    case 0x6 =>
      var f := v[VF := And8(v[x], 1)];
      f[x := f[x] / 2]
    case 0x7 =>
      var f := v[VF := if v[y] > v[x] then 1 else 0];
      f[x := Wrap8(f[y] as int - f[x])]
    case 0xE =>
      var f := v[VF := if And8(v[x], 0x80) != 0 then 1 else 0];
      f[x := Wrap8(f[x] as int * 2)]
    case _ => v
  }

  // ---------------------------------------------------------------------
  // Dxyn: the sprite drawing loop, one pixel at a time.

  /** The registers and the display, the part of the state a draw changes. */
  datatype Canvas = Canvas(V: seq<byte>, gfx: seq<byte>)

  /** `1 << (7 - col)`: the bit of a sprite row that holds column `col`. */
  function ColumnMask(col: nat): (m: byte)
    requires col < 8
    ensures m == Pow2(7 - col)
  {
    Pow2Monotone(7 - col, 7);
    Pow2(7 - col)
  }

  /** 1 if column `col` of a sprite row is set, else 0. */
  function SpritePixel(sprite: byte, col: nat): (p: byte)
    requires col < 8
    ensures p < 2
  {
    if And8(sprite, ColumnMask(col)) != 0 then 1 else 0
  }

  /** The display index `SCREEN_W * (V[y] + row) + V[x] + col` of a sprite pixel. */
  function DrawPos(vx: int, vy: int, row: nat, col: nat): int
  {
    SCREEN_W * (vy + row) + (vx + col)
  }

  /** Whether pixel (row, col) of a draw reads `ram` and writes `gfx` inside their bounds. */
  predicate PixelInRange(c: Canvas, ram: seq<byte>, i: int, x: nat, y: nat, row: nat, col: nat)
    requires |c.V| == REGISTERS && x < REGISTERS && y < REGISTERS
  {
    0 <= i + row < |ram| && 0 <= DrawPos(c.V[x], c.V[y], row, col) < |c.gfx|
  }

  /**
   * The statements of the inner loop body for one pixel value at display
   * index `pos`: the collision is ORed into VF, the pixel XORed into the cell.
   */
  function PixelApply(c: Canvas, pixel: byte, pos: nat): (r: Canvas)
    requires |c.V| == REGISTERS && pixel < 2 && pos < |c.gfx|
    ensures |r.V| == REGISTERS && |r.gfx| == |c.gfx|
  {
    Canvas(c.V[VF := Or8(c.V[VF], And8(c.gfx[pos], pixel))],
           c.gfx[pos := Xor8(c.gfx[pos], pixel)])
  }

  /**
   * One iteration of the inner drawing loop: reads sprite row `ram[I + row]`,
   * re-reads V[x] and V[y] for the position, and applies the pixel of
   * column `col`. None when the C code would index `ram` or `gfx` out of
   * range.
   */
  function PixelStep(c: Canvas, ram: seq<byte>, i: int, x: nat, y: nat, row: nat, col: nat): (r: Option<Canvas>)
    requires |c.V| == REGISTERS && x < REGISTERS && y < REGISTERS && col < 8
    ensures r.Some? ==> |r.value.V| == REGISTERS && |r.value.gfx| == |c.gfx|
  {
    if PixelInRange(c, ram, i, x, y, row, col) then
      Some(PixelApply(c, SpritePixel(ram[i + row], col), DrawPos(c.V[x], c.V[y], row, col)))
    else None
  }

  /**
   * The two nested loops of Dxyn from sprite row `row`, column `col` on, as
   * the loops run them: column 8 ends a row and starts the next one. The
   * result is the canvas once all `n` rows are drawn, or None if some pixel
   * on the way is out of range.
   */
  function DrawFrom(c: Canvas, ram: seq<byte>, i: int, x: nat, y: nat, n: nat, row: nat, col: nat): (r: Option<Canvas>)
    requires |c.V| == REGISTERS && x < REGISTERS && y < REGISTERS && col <= 8
    ensures r.Some? ==> |r.value.V| == REGISTERS && |r.value.gfx| == |c.gfx|
    decreases n - row, 8 - col
  {
    if row >= n then Some(c)
    else if col == 8 then DrawFrom(c, ram, i, x, y, n, row + 1, 0)
    else
      match PixelStep(c, ram, i, x, y, row, col)
      case None => None
      case Some(d) => DrawFrom(d, ram, i, x, y, n, row, col + 1)
  }

  /** The whole Dxyn draw: `N(op)` sprite rows of 8 pixels. */
  function Draw(s: State, op: u16): Option<Canvas>
    requires WellFormed(s)
  {
    DrawFrom(Canvas(s.V, s.gfx), s.ram, s.I, X(op), Y(op), N(op), 0, 0)
  }

  // ---------------------------------------------------------------------
  // chippy_step

  /**
   * What executing `op` needs of the state so that the C code stays in
   * range: RET pops from a non-empty stack, CALL pushes onto a stack that
   * is not full, and every pixel of a draw lies inside `ram` and `gfx`.
   */
  predicate OperandsInRange(s: State, op: u16)
    requires WellFormed(s)
  {
    && (P(op) == 0x0 && KK(op) == 0xEE ==> 1 <= s.sp <= STACK_SIZE)
    && (P(op) == 0x2 ==> s.sp < STACK_SIZE)
    && (P(op) == 0xD ==> Draw(s, op).Some?)
  }

  /** `chippy_step` is defined: the fetch is inside memory and the instruction is in range. */
  predicate CanStep(s: State)
    requires WellFormed(s)
  {
    s.pc + 1 < RAM_SIZE && OperandsInRange(s, Fetch(s))
  }

  /** The new state and the returned status code (0 success, 1 failure). */
  datatype StepResult = StepResult(next: State, status: int)

  /** Execute `op` on a state whose `pc` already points past it. */
  function Execute(s: State, op: u16, rnd: byte): (r: StepResult)
    requires WellFormed(s) && OperandsInRange(s, op)
    ensures WellFormed(r.next)
  {
    var x, y := X(op), Y(op);
    match P(op)
    case 0x0 =>
      if KK(op) == 0xE0 then StepResult(s.(gfx := seq(|s.gfx|, _ => 0)), 0)
      else if KK(op) == 0xEE then
        var sp := s.sp - 1;
        StepResult(s.(sp := sp, pc := s.stack[sp]), 0)
      else StepResult(s, 0)
    case 0x1 => StepResult(s.(pc := NNN(op)), 0)
    case 0x2 => StepResult(s.(stack := s.stack[s.sp := s.pc], sp := s.sp + 1, pc := NNN(op)), 0)
    case 0x3 => StepResult(if s.V[x] == KK(op) then s.(pc := Wrap16(s.pc as int + 2)) else s, 0)
    case 0x4 => StepResult(if s.V[x] != KK(op) then s.(pc := Wrap16(s.pc as int + 2)) else s, 0)
    case 0x5 => StepResult(if s.V[x] == s.V[y] then s.(pc := Wrap16(s.pc as int + 2)) else s, 0)
    case 0x6 => StepResult(s.(V := s.V[x := KK(op)]), 0)
    case 0x7 => StepResult(s.(V := s.V[x := Wrap8(s.V[x] as int + KK(op))]), 0)
    case 0x8 => StepResult(s.(V := Alu(s.V, x, y, N(op))), 0)
    case 0x9 => StepResult(if s.V[x] != s.V[y] then s.(pc := Wrap16(s.pc as int + 2)) else s, 0)
    case 0xA => StepResult(s.(I := NNN(op)), 0)
    case 0xB => StepResult(s.(pc := NNN(op) + s.V[0]), 0)
    case 0xC => StepResult(s.(V := s.V[x := And8(rnd, KK(op))]), 0)
    case 0xD =>
      var c := Draw(s, op).value;
      StepResult(s.(V := c.V, gfx := c.gfx), 0)
    case 0xE => StepResult(s, 0)
    case 0xF =>
      if N(op) == 0x7 then StepResult(s.(V := s.V[x := s.dt]), 0)
      else if N(op) == 0xA then StepResult(s.(waitKey := x), 0)
      else StepResult(s, 0)
    case _ => StepResult(s, 1)
  }

  /**
   * `chippy_step`: fetch, clear a pending key wait, advance `pc` by 2 and
   * execute. `rnd` is the value of `rand()` that Cxkk masks.
   */
  function Step(s: State, rnd: byte): (r: StepResult)
    requires WellFormed(s) && CanStep(s)
    ensures WellFormed(r.next)
  {
    var op := Fetch(s);
    var s1 := if s.waitKey != -1 then s.(waitKey := -1) else s;
    var s2 := s1.(pc := Wrap16(s1.pc as int + 2));
    Execute(s2, op, rnd)
  }
}
