/**
 * The constants, the font table and the machine layout of libchippy's
 * header `chippy.h`.
 */
module ChippyH {
  import opened Bytes

  /** Where CHIP-8 programs are loaded; 0x000-0x1FF belongs to the interpreter. */
  const PROGRAM_START: nat := 0x200
  /** Addressable memory of the machine (4 kB). */
  const RAM_SIZE: nat := 0x1000
  /** The 64x32 monochrome display. */
  const SCREEN_W: nat := 64
  const SCREEN_H: nat := 32

  /** Number of general-purpose registers, stack slots and keys. */
  const REGISTERS: nat := 16
  const STACK_SIZE: nat := 16
  const KEYS: nat := 16
  /** Index of the flags register VF. */
  const VF: nat := 0xF

  /**
   * The five rows of the sprite for hexadecimal digit `d`, 8 pixels per
   * row with the most significant bit leftmost.
   */
  function FontGlyph(d: nat): (g: seq<byte>)
    requires d < 16
    ensures |g| == 5
  {
    match d
    case 0x0 => [0xF0, 0x90, 0x90, 0x90, 0xF0]
    case 0x1 => [0x20, 0x60, 0x20, 0x20, 0x70]
    case 0x2 => [0xF0, 0x10, 0xF0, 0x80, 0xF0]
    case 0x3 => [0xF0, 0x10, 0xF0, 0x10, 0xF0]
    case 0x4 => [0x90, 0x90, 0xF0, 0x10, 0x10]
    case 0x5 => [0xF0, 0x80, 0xF0, 0x10, 0xF0]
    case 0x6 => [0xF0, 0x80, 0xF0, 0x90, 0xF0]
    case 0x7 => [0xF0, 0x10, 0x20, 0x40, 0x40]
    case 0x8 => [0xF0, 0x90, 0xF0, 0x90, 0xF0]
    case 0x9 => [0xF0, 0x90, 0xF0, 0x10, 0xF0]
    case 0xA => [0xF0, 0x90, 0xF0, 0x90, 0x90]
    case 0xB => [0xE0, 0x90, 0xE0, 0x90, 0xE0]
    case 0xC => [0xF0, 0x80, 0x80, 0x80, 0xF0]
    case 0xD => [0xE0, 0x90, 0x90, 0x90, 0xE0]
    case 0xE => [0xF0, 0x80, 0xF0, 0x80, 0xF0]
    case 0xF => [0xF0, 0x80, 0xF0, 0x80, 0x80]
  }

  /** The 80-byte `fontset` table: the glyphs of 0 through F, one after the other. */
  const Fontset: seq<byte> := seq(80, i requires 0 <= i < 80 => FontGlyph(i / 5)[i % 5])

  /** 16 glyphs of 5 bytes, each byte using only the four leftmost columns. */
  lemma FontsetShape()
    ensures |Fontset| == 16 * 5
    ensures forall i :: 0 <= i < |Fontset| ==> Fontset[i] % 16 == 0
  {
    forall i | 0 <= i < |Fontset|
      ensures Fontset[i] % 16 == 0
    {
      assert Fontset[i] == FontGlyph(i / 5)[i % 5];
    }
  }

  /** Digit `d`'s glyph is stored at bytes 5d .. 5d+4 of the table. */
  lemma GlyphLocation(d: nat)
    requires d < 16
    ensures 5 * d + 5 <= |Fontset|
    ensures Fontset[5 * d .. 5 * d + 5] == FontGlyph(d)
  {
    forall r | 0 <= r < 5
      ensures Fontset[5 * d + r] == FontGlyph(d)[r]
    {
      assert (5 * d + r) / 5 == d && (5 * d + r) % 5 == r;
    }
  }

  /** The program area starts inside memory and the font fits below it. */
  lemma MemoryLayout()
    ensures 0 < PROGRAM_START < RAM_SIZE
    ensures RAM_SIZE - PROGRAM_START == 0xE00
    ensures |Fontset| <= PROGRAM_START
  {
  }

  /**
   * The value of a `struct chippy`, with the fields `chippy.c` uses: the
   * delay and sound timers are `dt` and `st`, and `waitKey` is the register
   * index a key-wait instruction recorded, or -1.
   */
  datatype State = State(
    ram: seq<byte>,
    V: seq<byte>,
    stack: seq<u16>,
    gfx: seq<byte>,
    key: seq<byte>,
    pc: u16,
    I: u16,
    sp: u16,
    dt: byte,
    st: byte,
    waitKey: int)

  /** The array sizes of the struct. */
  predicate WellFormed(s: State)
  {
    && |s.ram| == RAM_SIZE
    && |s.V| == REGISTERS
    && |s.stack| == STACK_SIZE
    && |s.gfx| == SCREEN_W * SCREEN_H
    && |s.key| == KEYS
  }

  /** Row-major index of display cell (x, y). */
  function PixelIndex(x: nat, y: nat): (i: nat)
    requires x < SCREEN_W && y < SCREEN_H
    ensures i < SCREEN_W * SCREEN_H
    ensures i / SCREEN_W == y && i % SCREEN_W == x
  {
    SCREEN_W * y + x
  }

  /** Every display cell belongs to exactly one (x, y) pair. */
  lemma PixelIndexBijective(i: nat, x: nat, y: nat)
    requires i < SCREEN_W * SCREEN_H && x < SCREEN_W && y < SCREEN_H
    ensures i / SCREEN_W < SCREEN_H
    ensures PixelIndex(x, y) == i <==> x == i % SCREEN_W && y == i / SCREEN_W
  {
  }
}
