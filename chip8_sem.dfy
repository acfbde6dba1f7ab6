/**
 * `chip8_cycle`, the older step function: it knows only CLS and RET in
 * the 0 family and fails on everything else. Its meaning as a function on
 * `chip8` values and what it promises, including how its RET differs
 * from libchippy's. The class in module Chip8 is proved to compute it.
 */
module Chip8Sem {
  import opened Bytes
  import opened Chip8H
  import Sem = ChippySem
  import ChippyH

  /** The state after a cycle and its status code (0 success, 1 failure). */
  datatype CycleResult = CycleResult(next: Chip8State, status: int)

  /** The 16-bit instruction at `pc`, high byte first. */
  function Fetch(c: Chip8State): (op: u16)
    requires WellFormed(c) && c.pc + 1 < RAM_SIZE
    ensures op / 0x100 == c.ram[c.pc] && op % 0x100 == c.ram[c.pc + 1]
  {
    c.ram[c.pc] as int * 0x100 + c.ram[c.pc + 1]
  }

  /** RET: a 0-family instruction whose low nibble is E. */
  predicate IsReturn(op: u16)
  {
    Sem.P(op) == 0 && Sem.N(op) == 0xE
  }

  /**
   * `chip8_cycle` stays in range: the fetch is inside memory and a RET
   * pops from a non-empty stack.
   */
  predicate CanCycle(c: Chip8State)
    requires WellFormed(c)
  {
    c.pc + 1 < RAM_SIZE && (IsReturn(Fetch(c)) ==> 1 <= c.sp <= 16)
  }

  /**
   * `chip8_cycle`: in the 0 family, low nibble 0 clears the display and
   * advances `pc`, low nibble E returns to the popped address plus 2;
   * any other instruction fails and changes nothing.
   */
  function Cycle(c: Chip8State): (r: CycleResult)
    requires WellFormed(c) && CanCycle(c)
    ensures WellFormed(r.next)
  {
    var op := Fetch(c);
    if Sem.P(op) != 0 then CycleResult(c, 1)
    else if Sem.N(op) == 0x0 then
      CycleResult(c.(gfx := seq(|c.gfx|, _ => 0), pc := Wrap16(c.pc as int + 2)), 0)
    else if Sem.N(op) == 0xE then
      var sp := c.sp - 1;
      CycleResult(c.(sp := sp, pc := Wrap16(c.stack[sp] as int + 2)), 0)
    else CycleResult(c, 1)
  }

  /** Any instruction outside the 0 family fails and leaves the whole state, `pc` included, as it was. */
  lemma CycleRejects(c: Chip8State)
    requires WellFormed(c) && CanCycle(c) && Sem.P(Fetch(c)) != 0
    ensures Cycle(c) == CycleResult(c, 1)
  {
  }

  /**
   * A 0-family instruction with low nibble 0 (00E0, but also 0000 and any
   * 0nn0) clears every display cell, advances `pc` by 2 and succeeds.
   */
  lemma CycleClears(c: Chip8State)
    requires WellFormed(c) && CanCycle(c) && Sem.P(Fetch(c)) == 0 && Sem.N(Fetch(c)) == 0
    ensures Cycle(c).status == 0
    ensures forall j :: 0 <= j < |c.gfx| ==> Cycle(c).next.gfx[j] == 0
    ensures Cycle(c).next == c.(gfx := Cycle(c).next.gfx, pc := Wrap16(c.pc as int + 2))
  {
  }

  /**
   * A 0-family instruction with low nibble E (00EE, but also any 0nnE)
   * pops the stack and continues 2 bytes after the popped address.
   */
  lemma CycleReturns(c: Chip8State)
    requires WellFormed(c) && CanCycle(c) && IsReturn(Fetch(c))
    ensures 1 <= c.sp <= 16
    ensures Cycle(c) == CycleResult(c.(sp := c.sp - 1, pc := Wrap16(c.stack[c.sp - 1] as int + 2)), 0)
  {
  }

  /** Any other low nibble in the 0 family fails and changes nothing. */
  lemma CycleRejectsSystem(c: Chip8State)
    requires WellFormed(c) && CanCycle(c) && Sem.P(Fetch(c)) == 0
    requires Sem.N(Fetch(c)) != 0x0 && Sem.N(Fetch(c)) != 0xE
    ensures Cycle(c) == CycleResult(c, 1)
  {
  }

  /** A cycle succeeds exactly for the 0-family instructions with low nibble 0 or E. */
  lemma CycleStatus(c: Chip8State)
    requires WellFormed(c) && CanCycle(c)
    ensures Cycle(c).status == 0 <==> Sem.P(Fetch(c)) == 0 && Sem.N(Fetch(c)) in {0x0, 0xE}
    ensures Cycle(c).status == 0 || Cycle(c).status == 1
  {
  }

  /** No cycle changes the memory, the registers, the index, the timers or the keypad. */
  lemma CycleFrame(c: Chip8State)
    requires WellFormed(c) && CanCycle(c)
    ensures var r := Cycle(c).next;
      && r.ram == c.ram && r.V == c.V && r.I == c.I
      && r.delayTimer == c.delayTimer && r.soundTimer == c.soundTimer && r.key == c.key
  {
  }

  /**
   * The two RET conventions: on the same memory, `pc`, stack and `sp`,
   * `chip8_cycle` returns 2 bytes further than `chippy_step`, which
   * returns to the stored address itself (its CALL stores the address of
   * the following instruction).
   */
  lemma ReturnConventions(c: Chip8State, s: ChippyH.State, rnd: byte)
    requires WellFormed(c) && CanCycle(c) && ChippyH.WellFormed(s) && Sem.CanStep(s)
    requires c.ram == s.ram && c.pc == s.pc && c.stack == s.stack && c.sp == s.sp
    requires Sem.P(Fetch(c)) == 0 && Sem.KK(Fetch(c)) == 0xEE
    ensures Cycle(c).next.pc == Wrap16(Sem.Step(s, rnd).next.pc as int + 2)
    ensures Cycle(c).next.sp == Sem.Step(s, rnd).next.sp
  {
    assert Sem.Fetch(s) == Fetch(c);
    assert IsReturn(Fetch(c));
  }
}
