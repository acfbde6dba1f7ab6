/**
 * The `chip8` struct of the older interpreter as a mutable object, with
 * `chip8_cycle` as a method proved to compute `Chip8Sem.Cycle`.
 */
module Chip8 {
  import opened Bytes
  import opened Chip8H
  import Sem = ChippySem
  import C8 = Chip8Sem

  /** The `chip8` struct as a mutable object. */
  class Machine {
    var ram: array<byte>
    var V: array<byte>
    var delayTimer: byte
    var soundTimer: byte
    var pc: u16
    var I: u16
    var sp: u16
    var stack: array<u16>
    var gfx: array<byte>
    var key: array<byte>

    /** The array sizes of the struct. */
    ghost predicate Valid()
      reads this
    {
      && ram.Length == RAM_SIZE
      && V.Length == 16
      && stack.Length == 16
      && gfx.Length == SCREEN_W * SCREEN_H
      && key.Length == 16
    }

    /** The machine as a value. */
    function Snapshot(): (c: Chip8State)
      reads this, ram, V, stack, gfx, key
      requires Valid()
      ensures WellFormed(c)
    {
      Chip8State(ram[..], V[..], delayTimer, soundTimer, pc, I, sp, stack[..], gfx[..], key[..])
    }

    /** `chip8_cycle`. */
    method Cycle() returns (status: int)
      requires Valid() && C8.CanCycle(Snapshot())
      modifies gfx, this`pc, this`sp
      ensures Valid()
      ensures C8.CycleResult(Snapshot(), status) == C8.Cycle(old(Snapshot()))
    {
      var opcode: u16 := ram[pc] as int * 0x100 + ram[pc + 1];
      if Sem.P(opcode) == 0 {
        var n := Sem.N(opcode);
        if n == 0x0 {
          forall i | 0 <= i < gfx.Length {
            gfx[i] := 0;
          }
          pc := Wrap16(pc as int + 2);
          status := 0;
        } else if n == 0xE {
          sp := sp - 1;
          pc := Wrap16(stack[sp] as int + 2);
          status := 0;
        } else {
          status := 1;
        }
      } else {
        status := 1;
      }
    }
  }
}
