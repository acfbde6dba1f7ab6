/**
 * The constants, the font table and the machine layout of the older
 * `chip8` interpreter, and their agreement with libchippy's header.
 */
module Chip8H {
  import opened Bytes
  import ChippyH

  /** Address of the first program byte. */
  const PROGRAM_START: nat := 0x200
  /** Bytes of memory. */
  const RAM_SIZE: nat := 0x1000
  /** Display width and height in pixels. */
  const SCREEN_W: nat := 64
  const SCREEN_H: nat := 32

  /** The 80-byte `fontset` table of this header, one five-byte row per digit 0 through F. */
  const Fontset: seq<byte> :=
    [0xF0, 0x90, 0x90, 0x90, 0xF0] +
    [0x20, 0x60, 0x20, 0x20, 0x70] +
    [0xF0, 0x10, 0xF0, 0x80, 0xF0] +
    [0xF0, 0x10, 0xF0, 0x10, 0xF0] +
    [0x90, 0x90, 0xF0, 0x10, 0x10] +
    [0xF0, 0x80, 0xF0, 0x10, 0xF0] +
    [0xF0, 0x80, 0xF0, 0x90, 0xF0] +
    [0xF0, 0x10, 0x20, 0x40, 0x40] +
    [0xF0, 0x90, 0xF0, 0x90, 0xF0] +
    [0xF0, 0x90, 0xF0, 0x10, 0xF0] +
    [0xF0, 0x90, 0xF0, 0x90, 0x90] +
    [0xE0, 0x90, 0xE0, 0x90, 0xE0] +
    [0xF0, 0x80, 0x80, 0x80, 0xF0] +
    [0xE0, 0x90, 0x90, 0x90, 0xE0] +
    [0xF0, 0x80, 0xF0, 0x80, 0xF0] +
    [0xF0, 0x80, 0xF0, 0x80, 0x80]

  /** The memory and display constants are those of libchippy's header. */
  lemma SameConstants()
    ensures PROGRAM_START == ChippyH.PROGRAM_START && RAM_SIZE == ChippyH.RAM_SIZE
    ensures SCREEN_W == ChippyH.SCREEN_W && SCREEN_H == ChippyH.SCREEN_H
  {
  }

  /** libchippy's glyphs of the digits below `k`, one after the other. */
  function Glyphs(k: nat): (g: seq<byte>)
    requires k <= 16
    ensures |g| == 5 * k
  {
    if k == 0 then [] else if k == 1 then ChippyH.FontGlyph(0) else Glyphs(k - 1) + ChippyH.FontGlyph(k - 1)
  }

  /** The first 5k bytes of libchippy's table are the glyphs of the digits below k. */
  lemma {:induction false} FontsetPrefix(k: nat)
    requires k <= 16
    ensures ChippyH.Fontset[..5 * k] == Glyphs(k)
  {
    if k > 0 {
      FontsetPrefix(k - 1);
      ChippyH.GlyphLocation(k - 1);
      assert ChippyH.Fontset[..5 * k] == ChippyH.Fontset[..5 * (k - 1)] + ChippyH.Fontset[5 * (k - 1) .. 5 * k];
    }
  }

  /** The font table is byte for byte libchippy's: 80 bytes, 16 glyphs of 5. */
  lemma SameFontset()
    ensures |Fontset| == 16 * 5
    ensures Fontset == ChippyH.Fontset
  {
    FontsetPrefix(16);
    assert ChippyH.Fontset[..80] == ChippyH.Fontset;
    assert Glyphs(16) == Fontset;
  }

  /**
   * The value of a `chip8` struct: memory, registers, the two timers, the
   * program counter, the index register, the stack pointer and stack, the
   * display and the keypad.
   */
  datatype Chip8State = Chip8State(
    ram: seq<byte>,
    V: seq<byte>,
    delayTimer: byte,
    soundTimer: byte,
    pc: u16,
    I: u16,
    sp: u16,
    stack: seq<u16>,
    gfx: seq<byte>,
    key: seq<byte>)

  /** The array sizes of the struct. */
  predicate WellFormed(c: Chip8State)
  {
    && |c.ram| == RAM_SIZE
    && |c.V| == 16
    && |c.stack| == 16
    && |c.gfx| == SCREEN_W * SCREEN_H
    && |c.key| == 16
  }

  /** The display has 2048 cells and memory 4096 bytes. */
  lemma Sizes(c: Chip8State)
    requires WellFormed(c)
    ensures |c.gfx| == 2048 && |c.ram| == 0x1000
  {
  }
}
