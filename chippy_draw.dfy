/**
 * What the Dxyn drawing loops of `chippy_step` promise, proved about the
 * fold `ChippySem.DrawFrom`. Where x and y are not VF the sprite position
 * is fixed for the whole draw; the lemmas below then say which display
 * cells change, that no cell is drawn twice, when the draw stays in range,
 * that VF ends up reporting exactly the collisions, and that drawing twice
 * erases the sprite and reports a collision the second time.
 */
module ChippyDraw {
  import opened Bytes
  import opened ChippyH
  import opened ChippySem

  /**
   * The pixel value the rows `row..n` (from column `col` of row `row` on)
   * of a sprite at (`vx`, `vy`) XOR into display cell `q`: the bit of the
   * sprite row drawn at `q`, or 0 if no pixel of the draw lands on `q`.
   */
  function Painted(vx: nat, vy: nat, ram: seq<byte>, i: int, n: nat, row: nat, col: nat, q: int): (p: byte)
    requires col <= 8
    ensures p < 2
    decreases n - row, 8 - col
  {
    if row >= n then 0
    else if col == 8 then Painted(vx, vy, ram, i, n, row + 1, 0, q)
    else if DrawPos(vx, vy, row, col) == q && 0 <= i + row < |ram| then SpritePixel(ram[i + row], col)
    else Painted(vx, vy, ram, i, n, row, col + 1, q)
  }

  /** Pixels are visited in increasing display order: a later pixel lies further on. */
  lemma DrawPosOrder(vx: nat, vy: nat, r1: nat, c1: nat, r2: nat, c2: nat)
    requires c1 < 8 && c2 <= 8
    requires r1 < r2 || (r1 == r2 && c1 < c2)
    ensures DrawPos(vx, vy, r1, c1) < DrawPos(vx, vy, r2, c2)
  {
    if r1 < r2 {
      assert SCREEN_W * (vy + r2) >= SCREEN_W * (vy + r1) + SCREEN_W;
    }
  }

  /** All pixel positions within one draw are distinct. */
  lemma DrawPosDistinct(vx: nat, vy: nat, r1: nat, c1: nat, r2: nat, c2: nat)
    requires c1 < 8 && c2 < 8
    requires DrawPos(vx, vy, r1, c1) == DrawPos(vx, vy, r2, c2)
    ensures r1 == r2 && c1 == c2
  {
    if r1 < r2 || (r1 == r2 && c1 < c2) {
      DrawPosOrder(vx, vy, r1, c1, r2, c2);
    } else if r2 < r1 || (r1 == r2 && c2 < c1) {
      DrawPosOrder(vx, vy, r2, c2, r1, c1);
    }
  }

  /** No pixel from (`row`, `col`) on lands on a cell before the position of that pixel. */
  lemma {:induction false} PaintedBefore(vx: nat, vy: nat, ram: seq<byte>, i: int, n: nat, row: nat, col: nat, q: int)
    requires col <= 8
    requires q < DrawPos(vx, vy, row, col)
    ensures Painted(vx, vy, ram, i, n, row, col, q) == 0
    decreases n - row, 8 - col
  {
    if row >= n {
    } else if col == 8 {
      DrawPosOrder(vx, vy, row, 7, row + 1, 0);
      PaintedBefore(vx, vy, ram, i, n, row + 1, 0, q);
    } else {
      PaintedBefore(vx, vy, ram, i, n, row, col + 1, q);
    }
  }

  /** A pixel of the draw contributes the sprite bit of its own column. */
  lemma {:induction false} PaintedAt(vx: nat, vy: nat, ram: seq<byte>, i: int, n: nat, row: nat, col: nat, r: nat, c: nat)
    requires col <= 8 && c < 8 && r < n && 0 <= i + r < |ram|
    requires row < r || (row == r && col <= c)
    ensures Painted(vx, vy, ram, i, n, row, col, DrawPos(vx, vy, r, c)) == SpritePixel(ram[i + r], c)
    decreases n - row, 8 - col
  {
    if col == 8 {
      PaintedAt(vx, vy, ram, i, n, row + 1, 0, r, c);
    } else if row == r && col == c {
    } else {
      DrawPosOrder(vx, vy, row, col, r, c);
      PaintedAt(vx, vy, ram, i, n, row, col + 1, r, c);
    }
  }

  /**
   * Every register other than VF is left as it was, and VF keeps all its
   * bits: the draw can only set bit 0 of VF, it never clears it.
   */
  lemma {:induction false} DrawKeepsRegisters(c: Canvas, ram: seq<byte>, i: int, x: nat, y: nat, n: nat, row: nat, col: nat)
    requires |c.V| == REGISTERS && x < REGISTERS && y < REGISTERS && col <= 8
    requires DrawFrom(c, ram, i, x, y, n, row, col).Some?
    ensures var d := DrawFrom(c, ram, i, x, y, n, row, col).value;
      && (forall j :: 0 <= j < REGISTERS && j != VF ==> d.V[j] == c.V[j])
      && d.V[VF] / 2 == c.V[VF] / 2
      && d.V[VF] % 2 >= c.V[VF] % 2
    decreases n - row, 8 - col
  {
    if row >= n {
    } else if col == 8 {
      DrawKeepsRegisters(c, ram, i, x, y, n, row + 1, 0);
    } else {
      var e := PixelStep(c, ram, i, x, y, row, col).value;
      var pos := DrawPos(c.V[x], c.V[y], row, col);
      var pixel := SpritePixel(ram[i + row], col);
      OneBitOperators(c.gfx[pos], pixel);
      OneBitOperators(c.V[VF], AndBit(c.gfx[pos], pixel));
      DrawKeepsRegisters(e, ram, i, x, y, n, row, col + 1);
    }
  }

  /**
   * With x and y other than VF, whether a draw stays in range depends only
   * on V[x], V[y] and the display size; it does when some pixel is left
   * exactly if the sprite rows up to row n-1 lie inside `ram` and the
   * last pixel, the bottom-right one, lies inside the display.
   */
  lemma {:induction false} DrawDefined(c: Canvas, ram: seq<byte>, i: nat, x: nat, y: nat, n: nat, row: nat, col: nat)
    requires |c.V| == REGISTERS && x < REGISTERS && y < REGISTERS && x != VF && y != VF
    requires row < n && col < 8
    ensures DrawFrom(c, ram, i, x, y, n, row, col).Some?
            <==> i + n <= |ram| && DrawPos(c.V[x], c.V[y], n - 1, 7) < |c.gfx|
    decreases n - row, 8 - col
  {
    var vx, vy := c.V[x], c.V[y];
    if row < n - 1 || col < 7 {
      DrawPosOrder(vx, vy, row, col, n - 1, 7);
    }
    if PixelInRange(c, ram, i, x, y, row, col) {
      var e := PixelStep(c, ram, i, x, y, row, col).value;
      assert e.V[x] == vx && e.V[y] == vy && |e.gfx| == |c.gfx|;
      assert DrawFrom(c, ram, i, x, y, n, row, col) == DrawFrom(e, ram, i, x, y, n, row, col + 1);
      if col + 1 < 8 {
        DrawDefined(e, ram, i, x, y, n, row, col + 1);
      } else if row + 1 < n {
        assert DrawFrom(e, ram, i, x, y, n, row, 8) == DrawFrom(e, ram, i, x, y, n, row + 1, 0);
        DrawDefined(e, ram, i, x, y, n, row + 1, 0);
      }
    }
  }

  /**
   * With x and y other than VF the draw XORs into each display cell `q`
   * exactly the sprite bit that lands on it, and leaves every other cell
   * as it was.
   */
  lemma {:induction false} DrawXorsSprite(c: Canvas, ram: seq<byte>, i: int, x: nat, y: nat, n: nat, row: nat, col: nat)
    requires |c.V| == REGISTERS && x < REGISTERS && y < REGISTERS && x != VF && y != VF && col <= 8
    requires DrawFrom(c, ram, i, x, y, n, row, col).Some?
    ensures var d := DrawFrom(c, ram, i, x, y, n, row, col).value;
      forall q :: 0 <= q < |c.gfx| ==> d.gfx[q] == Xor8(c.gfx[q], Painted(c.V[x], c.V[y], ram, i, n, row, col, q))
    decreases n - row, 8 - col
  {
    var d := DrawFrom(c, ram, i, x, y, n, row, col).value;
    if row >= n {
      forall q | 0 <= q < |c.gfx| ensures d.gfx[q] == Xor8(c.gfx[q], 0) {
        ZeroOperand(c.gfx[q]);
      }
    } else if col == 8 {
      DrawXorsSprite(c, ram, i, x, y, n, row + 1, 0);
    } else {
      var vx, vy := c.V[x], c.V[y];
      var pos := DrawPos(vx, vy, row, col);
      var pixel := SpritePixel(ram[i + row], col);
      var e := PixelStep(c, ram, i, x, y, row, col).value;
      assert e.V[x] == vx && e.V[y] == vy;
      DrawXorsSprite(e, ram, i, x, y, n, row, col + 1);
      forall q | 0 <= q < |c.gfx|
        ensures d.gfx[q] == Xor8(c.gfx[q], Painted(vx, vy, ram, i, n, row, col, q))
      {
        if q == pos {
          DrawPosOrder(vx, vy, row, col, row, col + 1);
          PaintedBefore(vx, vy, ram, i, n, row, col + 1, q);
          ZeroOperand(e.gfx[q]);
        }
      }
    }
  }

  /**
   * The cells a draw from (0, 0) changes: with x and y other than VF, cell
   * `SCREEN_W * (V[y] + r) + V[x] + c` receives bit c of sprite row r,
   * and a cell where no pixel lands is unchanged.
   */
  lemma DrawCells(c: Canvas, ram: seq<byte>, i: int, x: nat, y: nat, n: nat)
    requires |c.V| == REGISTERS && x < REGISTERS && y < REGISTERS && x != VF && y != VF
    requires DrawFrom(c, ram, i, x, y, n, 0, 0).Some?
    ensures var d := DrawFrom(c, ram, i, x, y, n, 0, 0).value;
      && (forall r, k :: 0 <= r < n && 0 <= k < 8 && 0 <= i + r < |ram| && 0 <= DrawPos(c.V[x], c.V[y], r, k) < |c.gfx| ==>
            d.gfx[DrawPos(c.V[x], c.V[y], r, k)] == Xor8(c.gfx[DrawPos(c.V[x], c.V[y], r, k)], SpritePixel(ram[i + r], k)))
      && (forall q :: 0 <= q < |c.gfx| && Painted(c.V[x], c.V[y], ram, i, n, 0, 0, q) == 0 ==> d.gfx[q] == c.gfx[q])
  {
    var d := DrawFrom(c, ram, i, x, y, n, 0, 0).value;
    DrawXorsSprite(c, ram, i, x, y, n, 0, 0);
    forall r, k | 0 <= r < n && 0 <= k < 8 && 0 <= i + r < |ram| && 0 <= DrawPos(c.V[x], c.V[y], r, k) < |c.gfx|
      ensures d.gfx[DrawPos(c.V[x], c.V[y], r, k)] == Xor8(c.gfx[DrawPos(c.V[x], c.V[y], r, k)], SpritePixel(ram[i + r], k))
    {
      PaintedAt(c.V[x], c.V[y], ram, i, n, 0, 0, r, k);
    }
    forall q | 0 <= q < |c.gfx| && Painted(c.V[x], c.V[y], ram, i, n, 0, 0, q) == 0
      ensures d.gfx[q] == c.gfx[q]
    {
      ZeroOperand(c.gfx[q]);
    }
  }

  /**
   * Drawing the same sprite twice at the same place (x, y other than VF)
   * is again in range and restores the display.
   */
  lemma DrawTwiceRestores(c: Canvas, ram: seq<byte>, i: nat, x: nat, y: nat, n: nat)
    requires |c.V| == REGISTERS && x < REGISTERS && y < REGISTERS && x != VF && y != VF
    requires DrawFrom(c, ram, i, x, y, n, 0, 0).Some?
    ensures var d := DrawFrom(c, ram, i, x, y, n, 0, 0).value;
      && DrawFrom(d, ram, i, x, y, n, 0, 0).Some?
      && DrawFrom(d, ram, i, x, y, n, 0, 0).value.gfx == c.gfx
  {
    var d := DrawFrom(c, ram, i, x, y, n, 0, 0).value;
    DrawKeepsRegisters(c, ram, i, x, y, n, 0, 0);
    assert d.V[x] == c.V[x] && d.V[y] == c.V[y];
    if n > 0 {
      DrawDefined(c, ram, i, x, y, n, 0, 0);
      DrawDefined(d, ram, i, x, y, n, 0, 0);
    }
    var e := DrawFrom(d, ram, i, x, y, n, 0, 0).value;
    DrawXorsSprite(c, ram, i, x, y, n, 0, 0);
    DrawXorsSprite(d, ram, i, x, y, n, 0, 0);
    forall q | 0 <= q < |c.gfx| ensures e.gfx[q] == c.gfx[q] {
      XorTwice(c.gfx[q], Painted(c.V[x], c.V[y], ram, i, n, 0, 0, q));
    }
  }

  // ---------------------------------------------------------------------
  // Collision: the VF result of Dxyn.

  /**
   * Pixel (r, k) of a sprite at (`vx`, `vy`) collides with the display
   * `gfx`: it lies in range, its sprite bit is set and the cell it lands on
   * is lit (bit 0 set, which is what `gfx[pos] & pixel` reads).
   */
  predicate Hit(vx: nat, vy: nat, gfx: seq<byte>, ram: seq<byte>, i: int, r: nat, k: nat)
    requires k < 8
  {
    && 0 <= i + r < |ram|
    && 0 <= DrawPos(vx, vy, r, k) < |gfx|
    && SpritePixel(ram[i + r], k) == 1
    && gfx[DrawPos(vx, vy, r, k)] % 2 == 1
  }

  /** Some pixel of sprite rows `row..n`, from column `col` of row `row` on, collides with `gfx`. */
  predicate CollidesFrom(vx: nat, vy: nat, gfx: seq<byte>, ram: seq<byte>, i: int, n: nat, row: nat, col: nat)
  {
    exists r: nat, k: nat :: row <= r < n && k < 8 && (row < r || col <= k) && Hit(vx, vy, gfx, ram, i, r, k)
  }

  /** Some pixel of an n-row sprite at (`vx`, `vy`) lands on a lit cell of `gfx`. */
  predicate Collides(vx: nat, vy: nat, gfx: seq<byte>, ram: seq<byte>, i: int, n: nat)
  {
    CollidesFrom(vx, vy, gfx, ram, i, n, 0, 0)
  }

  /** The pixels from (`row`, `col`) on are pixel (`row`, `col`) and those after it. */
  lemma CollidesFromStep(vx: nat, vy: nat, gfx: seq<byte>, ram: seq<byte>, i: int, n: nat, row: nat, col: nat)
    requires row < n && col < 8
    ensures CollidesFrom(vx, vy, gfx, ram, i, n, row, col)
            <==> Hit(vx, vy, gfx, ram, i, row, col) || CollidesFrom(vx, vy, gfx, ram, i, n, row, col + 1)
  {
    if CollidesFrom(vx, vy, gfx, ram, i, n, row, col) {
      var r: nat, k: nat :| row <= r < n && k < 8 && (row < r || col <= k) && Hit(vx, vy, gfx, ram, i, r, k);
      if !(r == row && k == col) {
        assert row < r || col + 1 <= k;
      }
    }
    if Hit(vx, vy, gfx, ram, i, row, col) {
      assert row <= row < n && col < 8;
    }
  }

  /** Column 8 of a row is column 0 of the next one. */
  lemma CollidesFromNextRow(vx: nat, vy: nat, gfx: seq<byte>, ram: seq<byte>, i: int, n: nat, row: nat)
    ensures CollidesFrom(vx, vy, gfx, ram, i, n, row, 8) <==> CollidesFrom(vx, vy, gfx, ram, i, n, row + 1, 0)
  {
    if CollidesFrom(vx, vy, gfx, ram, i, n, row + 1, 0) {
      var r: nat, k: nat :| row + 1 <= r < n && k < 8 && Hit(vx, vy, gfx, ram, i, r, k);
      assert row < r;
    }
  }

  /**
   * Writing the cell of pixel (`row`, `col`) does not change which later
   * pixels collide: they all land further on.
   */
  lemma CollidesFromFrame(vx: nat, vy: nat, g: seq<byte>, ram: seq<byte>, i: int, n: nat, row: nat, col: nat, v: byte)
    requires col < 8 && DrawPos(vx, vy, row, col) < |g|
    ensures var p := DrawPos(vx, vy, row, col);
      CollidesFrom(vx, vy, g[p := v], ram, i, n, row, col + 1) == CollidesFrom(vx, vy, g, ram, i, n, row, col + 1)
  {
    var p := DrawPos(vx, vy, row, col);
    var g' := g[p := v];
    if CollidesFrom(vx, vy, g', ram, i, n, row, col + 1) {
      var r: nat, k: nat :| row <= r < n && k < 8 && (row < r || col + 1 <= k) && Hit(vx, vy, g', ram, i, r, k);
      DrawPosOrder(vx, vy, row, col, r, k);
      assert Hit(vx, vy, g, ram, i, r, k);
    }
    if CollidesFrom(vx, vy, g, ram, i, n, row, col + 1) {
      var r: nat, k: nat :| row <= r < n && k < 8 && (row < r || col + 1 <= k) && Hit(vx, vy, g, ram, i, r, k);
      DrawPosOrder(vx, vy, row, col, r, k);
      assert Hit(vx, vy, g', ram, i, r, k);
    }
  }

  /**
   * With x and y other than VF, bit 0 of VF ends set exactly when it was
   * set before or some pixel of the draw lands on a lit cell. Each pixel
   * reads the display as it was before the draw, because no two pixels
   * share a cell.
   */
  lemma {:induction false} DrawCollision(c: Canvas, ram: seq<byte>, i: int, x: nat, y: nat, n: nat, row: nat, col: nat)
    requires |c.V| == REGISTERS && x < REGISTERS && y < REGISTERS && x != VF && y != VF && col <= 8
    requires DrawFrom(c, ram, i, x, y, n, row, col).Some?
    ensures var d := DrawFrom(c, ram, i, x, y, n, row, col).value;
      d.V[VF] % 2 == 1 <==> c.V[VF] % 2 == 1 || CollidesFrom(c.V[x], c.V[y], c.gfx, ram, i, n, row, col)
    decreases n - row, 8 - col
  {
    var vx, vy := c.V[x], c.V[y];
    if row >= n {
    } else if col == 8 {
      assert DrawFrom(c, ram, i, x, y, n, row, 8) == DrawFrom(c, ram, i, x, y, n, row + 1, 0);
      CollidesFromNextRow(vx, vy, c.gfx, ram, i, n, row);
      DrawCollision(c, ram, i, x, y, n, row + 1, 0);
    } else {
      var e := PixelStep(c, ram, i, x, y, row, col).value;
      var pos := DrawPos(vx, vy, row, col);
      var pixel := SpritePixel(ram[i + row], col);
      assert DrawFrom(c, ram, i, x, y, n, row, col) == DrawFrom(e, ram, i, x, y, n, row, col + 1);
      OneBitOperators(c.gfx[pos], pixel);
      OneBitOperators(c.V[VF], AndBit(c.gfx[pos], pixel));
      assert e.V[x] == vx && e.V[y] == vy;
      assert e.gfx == c.gfx[pos := Xor8(c.gfx[pos], pixel)];
      assert e.V[VF] % 2 == 1 <==> c.V[VF] % 2 == 1 || Hit(vx, vy, c.gfx, ram, i, row, col);
      CollidesFromStep(vx, vy, c.gfx, ram, i, n, row, col);
      CollidesFromFrame(vx, vy, c.gfx, ram, i, n, row, col, Xor8(c.gfx[pos], pixel));
      DrawCollision(e, ram, i, x, y, n, row, col + 1);
    }
  }

  /**
   * A set sprite pixel that lands on a dark cell lights it: after the draw
   * (x, y other than VF) the pixel collides with the new display.
   */
  lemma DrawLightsPixel(c: Canvas, ram: seq<byte>, i: nat, x: nat, y: nat, n: nat, r: nat, k: nat)
    requires |c.V| == REGISTERS && x < REGISTERS && y < REGISTERS && x != VF && y != VF
    requires DrawFrom(c, ram, i, x, y, n, 0, 0).Some?
    requires r < n && k < 8 && i + r < |ram| && SpritePixel(ram[i + r], k) == 1
    requires DrawPos(c.V[x], c.V[y], r, k) < |c.gfx| && c.gfx[DrawPos(c.V[x], c.V[y], r, k)] % 2 == 0
    ensures Hit(c.V[x], c.V[y], DrawFrom(c, ram, i, x, y, n, 0, 0).value.gfx, ram, i, r, k)
  {
    var d := DrawFrom(c, ram, i, x, y, n, 0, 0).value;
    var q := DrawPos(c.V[x], c.V[y], r, k);
    DrawXorsSprite(c, ram, i, x, y, n, 0, 0);
    PaintedAt(c.V[x], c.V[y], ram, i, n, 0, 0, r, k);
    OneBitOperators(c.gfx[q], 1);
    assert d.gfx[q] == Xor8(c.gfx[q], 1);
  }

  /** Column k of sprite row r, read from `ram[i + r]`, is set. */
  predicate SetPixel(ram: seq<byte>, i: int, r: nat, k: nat)
    requires k < 8
  {
    0 <= i + r < |ram| && SpritePixel(ram[i + r], k) == 1
  }

  /** Some pixel of the n sprite rows at `ram[i..]` is set. */
  predicate HasSetPixel(ram: seq<byte>, i: int, n: nat)
  {
    exists r: nat, k: nat :: r < n && k < 8 && SetPixel(ram, i, r, k)
  }

  /**
   * Drawing a sprite twice at the same place (x, y other than VF) reports
   * a collision the second time when its pixel (r, k) is set: that pixel
   * either collided already or lit its cell for the second draw.
   */
  lemma DrawTwiceCollidesAt(c: Canvas, ram: seq<byte>, i: nat, x: nat, y: nat, n: nat, r: nat, k: nat)
    requires |c.V| == REGISTERS && x < REGISTERS && y < REGISTERS && x != VF && y != VF
    requires DrawFrom(c, ram, i, x, y, n, 0, 0).Some?
    requires r < n && k < 8 && SetPixel(ram, i, r, k)
    ensures var d := DrawFrom(c, ram, i, x, y, n, 0, 0).value;
      && DrawFrom(d, ram, i, x, y, n, 0, 0).Some?
      && DrawFrom(d, ram, i, x, y, n, 0, 0).value.V[VF] % 2 == 1
  {
    var d := DrawFrom(c, ram, i, x, y, n, 0, 0).value;
    DrawTwiceRestores(c, ram, i, x, y, n);
    var vx, vy := c.V[x], c.V[y];
    var q := DrawPos(vx, vy, r, k);
    DrawKeepsRegisters(c, ram, i, x, y, n, 0, 0);
    assert d.V[x] == vx && d.V[y] == vy;
    DrawDefined(c, ram, i, x, y, n, 0, 0);
    if r < n - 1 || k < 7 {
      DrawPosOrder(vx, vy, r, k, n - 1, 7);
    }
    if c.gfx[q] % 2 == 1 {
      assert Hit(vx, vy, c.gfx, ram, i, r, k);
      DrawCollision(c, ram, i, x, y, n, 0, 0);
      DrawKeepsRegisters(d, ram, i, x, y, n, 0, 0);
    } else {
      DrawLightsPixel(c, ram, i, x, y, n, r, k);
      DrawCollision(d, ram, i, x, y, n, 0, 0);
    }
  }

  /**
   * Drawing a sprite with some set bit twice at the same place (x, y other
   * than VF) is in range again and reports a collision the second time.
   */
  lemma DrawTwiceCollides(c: Canvas, ram: seq<byte>, i: nat, x: nat, y: nat, n: nat)
    requires |c.V| == REGISTERS && x < REGISTERS && y < REGISTERS && x != VF && y != VF
    requires DrawFrom(c, ram, i, x, y, n, 0, 0).Some?
    requires HasSetPixel(ram, i, n)
    ensures var d := DrawFrom(c, ram, i, x, y, n, 0, 0).value;
      && DrawFrom(d, ram, i, x, y, n, 0, 0).Some?
      && DrawFrom(d, ram, i, x, y, n, 0, 0).value.V[VF] % 2 == 1
  {
    var r: nat, k: nat :| r < n && k < 8 && SetPixel(ram, i, r, k);
    DrawTwiceCollidesAt(c, ram, i, x, y, n, r, k);
  }

  /** The draw position of an on-screen pixel is the row-major index of its cell. */
  lemma DrawPosIsPixelIndex(vx: nat, vy: nat, r: nat, k: nat)
    requires vx + k < SCREEN_W && vy + r < SCREEN_H
    ensures DrawPos(vx, vy, r, k) == PixelIndex(vx + k, vy + r)
  {
  }
}
