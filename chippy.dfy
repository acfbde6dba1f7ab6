/**
 * libchippy's machine as a mutable object: `struct chippy` with its
 * arrays, `chippy_init` and `chippy_step` as methods proved to compute
 * the functions of module ChippySem.
 */
module Chippy {
  import opened Bytes
  import opened ChippyH
  import Sem = ChippySem

  class Machine {
    var ram: array<byte>
    var V: array<byte>
    var stack: array<u16>
    var gfx: array<byte>
    var key: array<byte>
    var pc: u16
    var I: u16
    var sp: u16
    var dt: byte
    var st: byte
    var waitKey: int

    /** The array sizes of `struct chippy`; the byte arrays are separate objects. */
    ghost predicate Valid()
      reads this
    {
      && ram.Length == RAM_SIZE
      && V.Length == REGISTERS
      && stack.Length == STACK_SIZE
      && gfx.Length == SCREEN_W * SCREEN_H
      && key.Length == KEYS
      && V != key
    }

    /** The machine as a value. */
    function Snapshot(): (s: State)
      reads this, ram, V, stack, gfx, key
      requires Valid()
      ensures WellFormed(s)
    {
      State(ram[..], V[..], stack[..], gfx[..], key[..], pc, I, sp, dt, st, waitKey)
    }

    /** A machine whose memory, registers and timers are all zero. */
    constructor ()
      ensures Valid()
      ensures fresh(ram) && fresh(V) && fresh(stack) && fresh(gfx) && fresh(key)
      ensures forall i :: 0 <= i < RAM_SIZE ==> ram[i] == 0
      ensures forall i :: 0 <= i < REGISTERS ==> V[i] == 0
      ensures forall i :: 0 <= i < STACK_SIZE ==> stack[i] == 0
      ensures forall i :: 0 <= i < SCREEN_W * SCREEN_H ==> gfx[i] == 0
      ensures forall i :: 0 <= i < KEYS ==> key[i] == 0
      ensures pc == 0 && I == 0 && sp == 0 && dt == 0 && st == 0 && waitKey == 0
    {
      ram := new byte[RAM_SIZE](_ => 0);
      V := new byte[REGISTERS](_ => 0);
      stack := new u16[STACK_SIZE](_ => 0);
      gfx := new byte[SCREEN_W * SCREEN_H](_ => 0);
      key := new byte[KEYS](_ => 0);
      pc, I, sp, dt, st, waitKey := 0, 0, 0, 0, 0, 0;
    }

    /** `chippy_init`. */
    method Init()
      requires Valid()
      modifies ram, stack, this`pc, this`sp, this`waitKey
      ensures Valid()
      ensures Snapshot() == Sem.Init(old(Snapshot()))
    {
      forall i | 0 <= i < |Fontset| {
        ram[i] := Fontset[i];
      }
      forall i | 0 <= i < stack.Length {
        stack[i] := 0;
      }
      pc := PROGRAM_START;
      sp := 0;
      waitKey := -1;
      assert ram[..] == Fontset + old(ram[..])[|Fontset|..];
      assert stack[..] == seq(STACK_SIZE, _ => 0);
    }

    /** `chippy_step`: one fetch-decode-execute cycle; `rnd` stands for `rand()`. */
    method Step(rnd: byte) returns (status: int)
      requires Valid() && Sem.CanStep(Snapshot())
      modifies V, stack, gfx, this`pc, this`I, this`sp, this`waitKey
      ensures Valid()
      ensures Sem.StepResult(Snapshot(), status) == Sem.Step(old(Snapshot()), rnd)
    {
      var opcode: u16 := ram[pc] as int * 0x100 + ram[pc + 1];
      if waitKey != -1 {
        waitKey := -1;
      }
      pc := Wrap16(pc as int + 2);
      status := Execute(opcode, rnd);
    }

    /** The `switch` of `chippy_step`, with `pc` already advanced past `opcode`. */
    method Execute(opcode: u16, rnd: byte) returns (status: int)
      requires Valid() && Sem.OperandsInRange(Snapshot(), opcode)
      modifies V, stack, gfx, this`pc, this`I, this`sp, this`waitKey
      ensures Valid()
      ensures Sem.StepResult(Snapshot(), status) == Sem.Execute(old(Snapshot()), opcode, rnd)
    {
      var x, y := Sem.X(opcode), Sem.Y(opcode);
      status := 0;
      match Sem.P(opcode) {
        case 0x0 =>
          var kk := Sem.KK(opcode);
          if kk == 0xE0 {
            ClearScreen();
          } else if kk == 0xEE {
            sp := sp - 1;
            pc := stack[sp];
          }
        case 0x1 =>
          pc := Sem.NNN(opcode);
        case 0x2 =>
          stack[sp] := pc;
          sp := sp + 1;
          pc := Sem.NNN(opcode);
        case 0x3 =>
          if V[x] == Sem.KK(opcode) {
            pc := Wrap16(pc as int + 2);
          }
        case 0x4 =>
          if V[x] != Sem.KK(opcode) {
            pc := Wrap16(pc as int + 2);
          }
        case 0x5 =>
          if V[x] == V[y] {
            pc := Wrap16(pc as int + 2);
          }
        case 0x6 =>
          V[x] := Sem.KK(opcode);
        case 0x7 =>
          V[x] := Wrap8(V[x] as int + Sem.KK(opcode));
        case 0x8 =>
          Arithmetic(x, y, Sem.N(opcode));
        case 0x9 =>
          if V[x] != V[y] {
            pc := Wrap16(pc as int + 2);
          }
        case 0xA =>
          I := Sem.NNN(opcode);
        case 0xB =>
          pc := Sem.NNN(opcode) + V[0];
        case 0xC =>
          V[x] := And8(rnd, Sem.KK(opcode));
        case 0xD =>
          Draw(x, y, Sem.N(opcode));
        case 0xE =>
        case 0xF =>
          var n := Sem.N(opcode);
          if n == 0x7 {
            V[x] := dt;
          } else if n == 0xA {
            waitKey := x;
          }
        case _ =>
          status := 1;
      }
    }

    /** 00E0: `memset(gfx, 0, ...)`. */
    method ClearScreen()
      requires Valid()
      modifies gfx
      ensures Valid()
      ensures gfx[..] == seq(gfx.Length, _ => 0)
    {
      forall i | 0 <= i < gfx.Length {
        gfx[i] := 0;
      }
    }

    /** 8xyN, the statements of one case in order. */
    method Arithmetic(x: nat, y: nat, n: nat)
      requires Valid() && x < REGISTERS && y < REGISTERS
      modifies V
      ensures Valid()
      ensures V[..] == Sem.Alu(old(V[..]), x, y, n)
    {
      match n {
        case 0x1 =>
          V[x] := V[y];
        case 0x2 =>
          V[x] := Or8(V[x], V[y]);
        case 0x3 =>
          V[x] := Xor8(V[x], V[y]);
        case 0x4 =>
          V[VF] := if V[x] as int + V[y] > 255 then 1 else 0;
          V[x] := Wrap8(V[x] as int + V[y]);
        case 0x5 =>
          V[VF] := if V[x] > V[y] then 1 else 0;
          V[x] := Wrap8(V[x] as int - V[y]);
        case 0x6 =>
          V[VF] := And8(V[x], 1);
          V[x] := V[x] / 2;
        case 0x7 =>
          V[VF] := if V[y] > V[x] then 1 else 0;
          V[x] := Wrap8(V[y] as int - V[x]);
        case 0xE =>
          V[VF] := if And8(V[x], 0x80) != 0 then 1 else 0;
          V[x] := Wrap8(V[x] as int * 2);
        case _ =>
      }
    }

    // The bodies below belong to Fx15, Fx18, Fx1E, Fx29, Fx33, Fx55 and
    // Fx65. `chippy_step` selects F cases by `opcode & 0x000F`, which never
    // equals their labels, so Execute never calls them; they are modelled
    // as written so that their own behaviour is on record.

    /** Fx15 as written: the delay timer becomes Vx. */
    method LoadDelayTimer(x: nat)
      requires Valid() && x < REGISTERS
      modifies this`dt
      ensures Valid()
      ensures dt == V[x]
    {
      dt := V[x];
    }

    /** Fx18 as written: the sound timer becomes Vx. */
    method LoadSoundTimer(x: nat)
      requires Valid() && x < REGISTERS
      modifies this`st
      ensures Valid()
      ensures st == V[x]
    {
      st := V[x];
    }

    /** Fx1E as written: I becomes I + Vx, truncated to 16 bits. */
    method AddToIndex(x: nat)
      requires Valid() && x < REGISTERS
      modifies this`I
      ensures Valid()
      ensures I == (old(I) as int + V[x]) % 0x1_0000
    {
      I := Wrap16(I as int + V[x]);
    }

    /** Fx29 as written: I becomes 5 * Vx, the address of the glyph of digit Vx when Vx < 16. */
    method LoadFontAddress(x: nat)
      requires Valid() && x < REGISTERS
      modifies this`I
      ensures Valid()
      ensures I == 5 * V[x] as int
      ensures V[x] < 16 ==> ram.Length >= I + 5 && I + 5 <= |Fontset|
    {
      I := V[x] as int * 5;
    }

    /**
     * Fx33 as written: stores the decimal digits of the register index x
     * (not of Vx) at I, I + 1 and I + 2. As x < 16 the hundreds digit is
     * always 0.
     */
    method StoreBcd(x: nat)
      requires Valid() && x < REGISTERS && I as int + 2 < RAM_SIZE
      modifies ram
      ensures Valid()
      ensures ram[..] == old(ram[..])[I := x / 100][I + 1 := x / 10 % 10][I + 2 := x % 10]
      ensures ram[I] == 0 && 10 * ram[I + 1] + ram[I + 2] == x
    {
      ram[I] := x / 100;
      ram[I as int + 1] := x / 10 % 10;
      ram[I as int + 2] := x % 10;
    }

    /** Fx55 as written: V0 through Vx are copied to memory from I on. */
    method StoreRegisters(x: nat)
      requires Valid() && x < REGISTERS && I as int + x < RAM_SIZE
      modifies ram
      ensures Valid()
      ensures ram[..] == old(ram[..])[..I] + V[..x + 1] + old(ram[..])[I as int + x + 1..]
    {
      var i := 0;
      while i <= x
        invariant 0 <= i <= x + 1
        invariant ram[..] == old(ram[..])[..I] + V[..i] + old(ram[..])[I as int + i..]
      {
        ram[I as int + i] := V[i];
        i := i + 1;
      }
    }

    /** Fx65 as written: V0 through Vx are loaded from memory from I on. */
    method LoadRegisters(x: nat)
      requires Valid() && x < REGISTERS && I as int + x < RAM_SIZE
      modifies V
      ensures Valid()
      ensures V[..] == ram[I..I as int + x + 1] + old(V[..])[x + 1..]
    {
      ghost var mem, regs := ram[..], V[..];
      var i := 0;
      while i <= x
        invariant 0 <= i <= x + 1
        invariant ram[..] == mem
        invariant forall j :: 0 <= j < i ==> V[j] == mem[I as int + j]
        invariant forall j :: i <= j < REGISTERS ==> V[j] == regs[j]
      {
        V[i] := ram[I as int + i];
        i := i + 1;
      }
      assert V[..] == mem[I..I as int + x + 1] + regs[x + 1..];
    }

    /** Dxyn: the two nested loops over sprite rows and columns. */
    method Draw(x: nat, y: nat, n: nat)
      requires Valid() && x < REGISTERS && y < REGISTERS
      requires Sem.DrawFrom(Sem.Canvas(V[..], gfx[..]), ram[..], I, x, y, n, 0, 0).Some?
      modifies V, gfx
      ensures Valid()
      ensures Sem.DrawFrom(old(Sem.Canvas(V[..], gfx[..])), ram[..], I, x, y, n, 0, 0)
              == Sem.Some(Sem.Canvas(V[..], gfx[..]))
    {
      ghost var mem := ram[..];
      ghost var base := I;
      ghost var target := Sem.DrawFrom(Sem.Canvas(V[..], gfx[..]), mem, base, x, y, n, 0, 0);
      var row: nat := 0;
      while row < n
        invariant row <= n && I == base && ram[..] == mem
        invariant Sem.DrawFrom(Sem.Canvas(V[..], gfx[..]), mem, base, x, y, n, row, 0) == target
      {
        var sprite := ram[I as int + row];
        var col: nat := 0;
        while col < 8
          invariant col <= 8
          invariant Sem.DrawFrom(Sem.Canvas(V[..], gfx[..]), mem, base, x, y, n, row, col) == target
        {
          DrawPixel(x, y, row, col, sprite);
          col := col + 1;
        }
        row := row + 1;
      }
    }

    /**
     * Dxyn: the inner loop body, drawing column `col` of sprite row `row`
     * (whose byte is `sprite`).
     */
    method DrawPixel(x: nat, y: nat, row: nat, col: nat, sprite: byte)
      requires Valid() && x < REGISTERS && y < REGISTERS && col < 8
      requires 0 <= Sem.DrawPos(V[x], V[y], row, col) < gfx.Length
      modifies V, gfx
      ensures Valid()
      ensures Sem.Canvas(V[..], gfx[..])
              == Sem.PixelApply(old(Sem.Canvas(V[..], gfx[..])), Sem.SpritePixel(sprite, col),
                                Sem.DrawPos(old(V[x]), old(V[y]), row, col))
    {
      var pixel := Sem.SpritePixel(sprite, col);
      var xpos := V[x] as int + col;
      var ypos := V[y] as int + row;
      var pos := SCREEN_W * ypos + xpos;
      V[VF] := Or8(V[VF], And8(gfx[pos], pixel));
      gfx[pos] := Xor8(gfx[pos], pixel);
    }
  }
}
