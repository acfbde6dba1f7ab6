# chippy: a verified model of the CHIP-8 interpreter core

This project models the CHIP-8 interpreter of the `chippy` repository in
Dafny and proves what the interpreter promises. It covers two variants.

- **libchippy** (`src/libchippy/chippy.c`, `chippy.h`). `struct chippy`
  becomes the class `Chippy.Machine`. The class owns the arrays `ram`
  (4096 bytes), `V` (16 registers), `stack` (16 entries), `gfx` (2048
  display cells) and `key` (16 keys). Its scalar fields are `pc`, `I`,
  `sp`, `dt`, `st` and `waitKey`.
  - `chippy_init` becomes `Machine.Init`.
  - `chippy_step` becomes `Machine.Step`. It fetches big-endian at `pc`,
    clears a pending key wait and adds 2 to `pc`. `Machine.Execute` then
    runs the switch on the instruction's nibbles.
  - Each method is proved to compute a pure function on machine values in
    module `ChippySem` (`Init`, `Step`, `Execute`, `Alu`, `DrawFrom`).
    Modules `ChippyProps` and `ChippyDraw` prove what those functions
    promise, instruction family by instruction family.
- **chip8** (`src/chip8.c`, `chip8.h`). This is the older step function
  `chip8_cycle`. It knows only CLS and RET and fails on everything else.
  It is the class `Chip8.Machine`, proved to compute `Chip8Sem.Cycle`.
  Module `Chip8H` proves that its constants and font table are
  libchippy's.

The scenarios of `tests/opcodes.c` are lemmas in module `ChippyTests`.
Each starts from `chippy_init` applied to an arbitrary machine. The test
helper allocates a machine with `malloc`, whose contents are undefined, and
`chippy_init` does not clear the registers. So each scenario sets every
register it depends on explicitly, including those the test expects to
be zero.

Files and modules:

| file | module | contents |
|---|---|---|
| bytes.dfy | Bytes | `byte`/`u16`, 8- and 16-bit wrap-around, bitwise AND/OR/XOR on bytes |
| chippy_h.dfy | ChippyH | constants, font table, the `State` value of `struct chippy` |
| chippy_sem.dfy | ChippySem | field macros, fetch, `Init`, `Alu`, the Dxyn fold, `Execute`, `Step` |
| chippy.dfy | Chippy | class `Machine` with `Init`, `Step` and one method per compound case |
| chippy_draw.dfy | ChippyDraw | properties of the Dxyn loops |
| chippy_props.dfy | ChippyProps | properties of `chippy_init` and of each instruction family |
| chippy_tests.dfy | ChippyTests | the opcode scenarios of the test suite |
| chip8_h.dfy | Chip8H | constants, font table and `chip8` value of the older variant |
| chip8_sem.dfy | Chip8Sem | `chip8_cycle` as a function and its properties |
| chip8.dfy | Chip8 | class `Machine` with `Cycle` |

## How the model follows the code

The model follows `chippy.c` as written, including where it departs from
the usual CHIP-8 reference (Cowgod's Chip-8 Technical Reference, section
3.1) and from its own header.

- **Field names.** `struct chippy` in `chippy.h:65-80` declares
  `delay_timer` and `sound_timer` and has no key-wait field. `chippy.c`
  uses `dt`, `st` and `wait_key` (lines 28, 192, 200, 204). The model
  has the fields the `.c` file uses.
- **The 8 family.** 8xy1 assigns, 8xy2 ORs and 8xy3 XORs. There is no
  8xy0 assignment and no AND. Low nibbles without a case change nothing
  (`ChippySem.Alu`, `ChippyProps.AluUnlisted`).
- **Flag first.** Every 8xyN case that sets VF does so before it updates
  Vx. When x or y is VF, the result depends on that order.
  `ChippyProps.AluFlagFirst` shows the consequences.
- **E and F families.** Both select their case by `opcode & 0x000F`. So
  the labels 0x9E, 0xA1, 0x15, 0x18, 0x1E, 0x29, 0x33, 0x55 and 0x65
  never match.
  - Every Ex__ instruction only advances `pc`.
  - Fx_7 loads the delay timer.
  - Fx_A records x as the key-wait register.
  - Every other Fx__ only advances `pc`.
  - The unreachable F bodies are modelled as separate methods of
    `Chippy.Machine` that `Execute` never calls. One of them, Fx33, stores
    the decimal digits of the register index x, not of Vx.
- **Dxyn.**
  - It never clears VF; collisions are ORed into bit 0 of it, and every
    other bit of VF keeps its value (`ChippyDraw.DrawKeepsRegisters`,
    `ChippyDraw.DrawCollision`).
  - It re-reads V[x] and V[y] on every pixel, so a draw with x or y equal
    to VF can move while it draws. `ChippySem.DrawFrom` is a fold over
    the pixels in loop order that does exactly this.
  - The lemmas about which cells change assume x and y are not VF.
- **No stack or bounds checks.** CALL, RET and Dxyn index their arrays
  without checking. The C code's array accesses then have no defined
  meaning. The model makes each one a precondition of `Step`:
  - `pc + 1 < 4096` for the fetch;
  - `1 <= sp <= 16` before RET;
  - `sp < 16` before CALL;
  - for every pixel of a draw, `I + row < 4096` and the cell index below
    2048. `ChippySem.Draw` is `None` when some pixel leaves these bounds.

  `ChippySem.CanStep` collects these conditions. `ChippyDraw.DrawDefined`
  restates the draw condition in closed form.
- **Status code.** All 16 values of the high nibble have a case. So the
  failure branch of `chippy_step` is unreachable and every step returns 0
  (`ChippyProps.StepFetchesThenExecutes`).
- **Integer widths.**
  - `pc`, `I`, `sp` and the stack entries are 16-bit values. `pc += 2`
    wraps modulo 2^16.
  - Registers are bytes. Additions, subtractions and shifts wrap modulo
    256.
  - Bnnn cannot overflow, because nnn + V0 is below 0x1100.
- **chip8_cycle.**
  - The older variant does not advance `pc` before executing.
  - It treats every 0-family instruction with low nibble 0 as CLS, and
    every one with low nibble E as RET.
  - Its RET continues at the popped address plus 2. libchippy's CALL
    stores the address after the call, and its RET jumps to the popped
    address itself (`Chip8Sem.ReturnConventions`).
  - Its preconditions are `pc + 1 < 4096` and, for RET, `1 <= sp <= 16`
    (`Chip8Sem.CanCycle`).

## Model

| member | source | states |
|---|---|---|
| Bytes.Wrap8 | src/libchippy/chippy.c:120 | an 8-bit register store keeps the value when it fits, and otherwise the value modulo 256 |
| Bytes.Wrap16 | src/libchippy/chippy.c:54 | a 16-bit store keeps the value when it fits, and otherwise the value modulo 2^16 |
| Bytes.BitwiseWidth | src/libchippy/chippy.c:111 | a bitwise operation on two numbers below 2^w gives a number below 2^w, so OR, AND and XOR of bytes are bytes |
| Bytes.And8 | src/libchippy/chippy.c:160 | C's `&` on two `uint8_t` values, bit by bit |
| Bytes.Or8 | src/libchippy/chippy.c:111 | C's `\|` on two `uint8_t` values, bit by bit |
| Bytes.Xor8 | src/libchippy/chippy.c:115 | C's `^` on two `uint8_t` values, bit by bit |
| Bytes.XorTwice | src/libchippy/chippy.c:174 | XORing a byte twice with the same value gives back the byte |
| Bytes.ZeroOperand | src/libchippy/chippy.c:173-174 | XOR and OR with 0 leave a byte unchanged, and AND with 0 gives 0 |
| Bytes.MaskTestsBit | src/libchippy/chippy.c:168 | `a & (1 << i)` is nonzero exactly when bit i of a is set |
| Bytes.OneBitOperators | src/libchippy/chippy.c:173-174 | on a 0/1 pixel, AND, OR and XOR agree with their one-bit definitions |
| ChippyH.FontGlyph | src/libchippy/chippy.h:43-58 | each digit's glyph has five rows |
| ChippyH.FontsetShape | src/libchippy/chippy.h:35-59 | the font table has 80 bytes, 16 glyphs of 5, each byte using only the four leftmost columns |
| ChippyH.GlyphLocation | src/libchippy/chippy.h:35-59 | the glyph of digit d is at bytes 5d to 5d+4 of the table |
| ChippyH.MemoryLayout | src/libchippy/chippy.h:15-26 | PROGRAM_START lies inside memory, leaves 0xE00 program bytes, and the font fits below it, as lines 39-40 ask |
| ChippyH.PixelIndex | src/libchippy/chippy.c:171 | the row-major index of cell (x, y) is inside the display and gives back y and x by division and remainder |
| ChippyH.PixelIndexBijective | src/libchippy/chippy.h:32-33 | every display cell has exactly one (x, y) pair |
| ChippySem.P | src/libchippy/chippy.c:21 | the family nibble is below 16 |
| ChippySem.X | src/libchippy/chippy.c:19 | the X field is a valid register index |
| ChippySem.Y | src/libchippy/chippy.c:20 | the Y field is a valid register index |
| ChippySem.N | src/libchippy/chippy.c:18 | the low nibble is below 16 |
| ChippySem.KK | src/libchippy/chippy.c:17 | the low byte of the instruction, a byte |
| ChippySem.NNN | src/libchippy/chippy.c:16 | the address field is inside memory |
| ChippySem.Fetch | src/libchippy/chippy.c:47-48 | the fetched instruction's high byte is `ram[pc]` and its low byte `ram[pc+1]` |
| ChippySem.Init | src/libchippy/chippy.c:23-29 | `chippy_init` keeps the array sizes of the struct |
| ChippySem.Alu | src/libchippy/chippy.c:104-143 | the 8xyN cases keep 16 registers |
| ChippySem.DrawPos | src/libchippy/chippy.c:169-171 | the display index `SCREEN_W * (V[y] + row) + V[x] + col` of a sprite pixel; `ChippyDraw.DrawPosIsPixelIndex` proves it is the row-major cell index |
| ChippySem.PixelInRange | src/libchippy/chippy.c:165-174 | a pixel reads `ram[I + row]` and writes `gfx[pos]` inside their bounds, the condition without which the C code indexes out of range |
| ChippySem.ColumnMask | src/libchippy/chippy.c:168 | `1 << (7 - col)` is 2^(7-col) |
| ChippySem.SpritePixel | src/libchippy/chippy.c:168 | a sprite pixel is 0 or 1 |
| ChippySem.PixelApply | src/libchippy/chippy.c:173-174 | the inner loop body keeps the register and display sizes |
| ChippySem.PixelStep | src/libchippy/chippy.c:165-174 | one pixel, in range, keeps the register and display sizes |
| ChippySem.DrawFrom | src/libchippy/chippy.c:164-176 | the nested draw loops keep the register and display sizes |
| ChippySem.Draw | src/libchippy/chippy.c:163-177 | the whole Dxyn draw of N sprite rows, `None` when some pixel is out of range |
| ChippySem.OperandsInRange | src/libchippy/chippy.c:64 | RET pops from a stack with 1 to 16 entries, CALL (line 74) pushes onto one with fewer than 16, and every pixel of a draw (lines 165, 173-174) is in range |
| ChippySem.CanStep | src/libchippy/chippy.c:47-48 | the fetch reads inside memory and the instruction's operands are in range |
| ChippySem.Execute | src/libchippy/chippy.c:56-238 | each case keeps the array sizes of the struct |
| ChippySem.Step | src/libchippy/chippy.c:46-241 | a step keeps the array sizes of the struct |
| Chippy.Machine.Snapshot | src/libchippy/chippy.h:65-80 | the machine's arrays have the sizes of the struct |
| Chippy.Machine.constructor | src/libchippy/chippy.h:65-80 | a fresh machine has arrays of the struct's sizes, all zero |
| Chippy.Machine.Init | src/libchippy/chippy.c:23-29 | the memcpy, memset and field stores compute `ChippySem.Init` of the old state |
| Chippy.Machine.Step | src/libchippy/chippy.c:46-241 | the fetch, key-wait reset, `pc += 2` and switch compute `ChippySem.Step` of the old state, status included |
| Chippy.Machine.Execute | src/libchippy/chippy.c:56-238 | the switch on the family computes `ChippySem.Execute` of the old state |
| Chippy.Machine.ClearScreen | src/libchippy/chippy.c:59-61 | every display cell becomes 0 |
| Chippy.Machine.Arithmetic | src/libchippy/chippy.c:104-143 | the registers become `ChippySem.Alu` of the old registers |
| Chippy.Machine.Draw | src/libchippy/chippy.c:163-177 | the nested loops compute the fold `ChippySem.DrawFrom` from the old registers and display |
| Chippy.Machine.DrawPixel | src/libchippy/chippy.c:168-174 | one inner iteration ORs the collision into VF and XORs the pixel into the cell at the position of the old V[x], V[y] |
| Chippy.Machine.LoadDelayTimer | src/libchippy/chippy.c:199-201 | the unreachable Fx15 body sets the delay timer to Vx |
| Chippy.Machine.LoadSoundTimer | src/libchippy/chippy.c:203-205 | the unreachable Fx18 body sets the sound timer to Vx |
| Chippy.Machine.AddToIndex | src/libchippy/chippy.c:207-209 | the unreachable Fx1E body sets I to I + Vx modulo 2^16 |
| Chippy.Machine.LoadFontAddress | src/libchippy/chippy.c:211-213 | the unreachable Fx29 body sets I to 5·Vx, which is the glyph of digit Vx inside the font when Vx < 16 |
| Chippy.Machine.StoreBcd | src/libchippy/chippy.c:215-219 | the unreachable Fx33 body writes the digits of the index x at I..I+2, the hundreds digit 0 and the other two making x |
| Chippy.Machine.StoreRegisters | src/libchippy/chippy.c:221-225 | the unreachable Fx55 body copies V0..Vx to ram[I..I+x] and leaves the rest of memory as it was |
| Chippy.Machine.LoadRegisters | src/libchippy/chippy.c:227-231 | the unreachable Fx65 body loads V0..Vx from ram[I..I+x] and leaves the other registers as they were |
| ChippyDraw.Painted | src/libchippy/chippy.c:164-176 | the value a draw XORs into one cell is 0 or 1 |
| ChippyDraw.DrawPosOrder | src/libchippy/chippy.c:164-171 | the loops visit pixels in increasing display index |
| ChippyDraw.DrawPosDistinct | src/libchippy/chippy.c:169-171 | all pixel positions within one draw are distinct |
| ChippyDraw.PaintedBefore | src/libchippy/chippy.c:164-176 | no later pixel lands on a cell before the current one |
| ChippyDraw.PaintedAt | src/libchippy/chippy.c:165-168 | the pixel at row r, column c contributes column c of sprite row `ram[I+r]`, that is bit 7-c (mask `1 << (7 - c)`) |
| ChippyDraw.DrawKeepsRegisters | src/libchippy/chippy.c:173 | a draw leaves every register but VF unchanged; VF keeps its upper bits and can only gain bit 0, never lose it (its exact value is `ChippyDraw.DrawCollision`) |
| ChippyDraw.DrawDefined | src/libchippy/chippy.c:164-176 | with x, y not VF, a draw is in range exactly when rows up to n-1 are inside memory and the bottom-right pixel is inside the display |
| ChippyDraw.DrawXorsSprite | src/libchippy/chippy.c:164-176 | each display cell becomes its old value XOR the sprite bit that lands on it |
| ChippyDraw.DrawCells | src/libchippy/chippy.c:164-176 | cell `64(Vy+r) + Vx+c` becomes its old value XOR column c (bit 7-c) of sprite row r, and cells no pixel lands on are unchanged |
| ChippyDraw.DrawTwiceRestores | src/libchippy/chippy.c:163-177 | drawing the same sprite twice at the same place is in range again and restores the display |
| ChippyDraw.Hit | src/libchippy/chippy.c:168-173 | pixel (r, k) collides: it is in range, its sprite bit is set and its cell is lit |
| ChippyDraw.CollidesFrom | src/libchippy/chippy.c:164-176 | some pixel from (row, col) on collides with the display |
| ChippyDraw.Collides | src/libchippy/chippy.c:163 | some pixel of the sprite lands on a lit cell |
| ChippyDraw.CollidesFromStep | src/libchippy/chippy.c:164-167 | the pixels from (row, col) on are that pixel and the ones after it |
| ChippyDraw.CollidesFromNextRow | src/libchippy/chippy.c:164-167 | column 8 of a row is column 0 of the next |
| ChippyDraw.CollidesFromFrame | src/libchippy/chippy.c:174 | writing the cell of one pixel does not change which later pixels collide |
| ChippyDraw.DrawCollision | src/libchippy/chippy.c:163-177 | with x, y not VF, bit 0 of VF ends set exactly when it was set before or some pixel lands on a lit cell of the display as it was before the draw |
| ChippyDraw.SetPixel | src/libchippy/chippy.c:165-168 | column k of sprite row r is set |
| ChippyDraw.HasSetPixel | src/libchippy/chippy.c:164-168 | some pixel of the sprite is set |
| ChippyDraw.DrawLightsPixel | src/libchippy/chippy.c:174 | a set pixel landing on a dark cell lights it |
| ChippyDraw.DrawTwiceCollidesAt | src/libchippy/chippy.c:163-177 | drawing twice reports a collision the second time when pixel (r, k) is set |
| ChippyDraw.DrawTwiceCollides | src/libchippy/chippy.c:163-177 | drawing a sprite with a set bit twice is in range again and sets bit 0 of VF the second time |
| ChippyDraw.DrawPosIsPixelIndex | src/libchippy/chippy.c:169-171 | the draw position of an on-screen pixel is the row-major index `SCREEN_W * y + x` of its cell |
| ChippyProps.Encode | src/libchippy/chippy.c:16-21 | an instruction is built from four nibbles |
| ChippyProps.DecodeEncode | src/libchippy/chippy.c:16-21 | the field macros take an instruction apart into its nibbles; KK is the low byte and NNN the low twelve bits |
| ChippyProps.EncodeDecode | src/libchippy/chippy.c:16-21 | each field macro recovers its own nibble of an encoded instruction |
| ChippyProps.InitEffect | src/libchippy/chippy.c:23-29 | after init the font is at ram[0..80], the rest of memory is unchanged, the stack is zero, `pc` is 0x200, `sp` is 0 and the key wait is -1; V, I, gfx, key and the timers are untouched |
| ChippyProps.InitLoadsGlyphs | src/libchippy/chippy.c:24 | after init the glyph of digit d is at ram[5d..5d+5] |
| ChippyProps.InitIdempotent | src/libchippy/chippy.h:82-88 | initialising twice gives the same state as initialising once |
| ChippyProps.Advanced | src/libchippy/chippy.c:50-54 | the state once the prologue has run keeps the array sizes |
| ChippyProps.StepFetchesThenExecutes | src/libchippy/chippy.c:46-56 | a step fetches big-endian, resets the key wait and adds 2 to `pc` modulo 2^16 before executing, and it returns 0; the `default` branch at lines 235-237 is never reached |
| ChippyProps.StepStatusCode | src/libchippy/chippy.h:90-97 | the status is 0 or 1 |
| ChippyProps.StepClearScreen | src/libchippy/chippy.c:59-61 | 00E0 sets all 2048 cells to 0 and changes nothing else but `pc` and the key wait |
| ChippyProps.StepReturn | src/libchippy/chippy.c:63-65 | 00EE decrements `sp` and `pc` becomes the top stack entry |
| ChippyProps.StepSystemIgnored | src/libchippy/chippy.c:57-67 | every other 0-family instruction only advances `pc` |
| ChippyProps.StepJump | src/libchippy/chippy.c:69-71 | 1nnn sets `pc` to nnn |
| ChippyProps.StepCall | src/libchippy/chippy.c:73-76 | 2nnn stores the advanced `pc` at stack[sp], increments `sp` and sets `pc` to nnn |
| ChippyProps.CallThenReturn | src/libchippy/chippy.c:63-76 | a CALL at address a followed by a RET continues at a+2 with `sp` restored |
| ChippyProps.StepJumpOffset | src/libchippy/chippy.c:155-157 | Bnnn sets `pc` to nnn + V0, which fits in 16 bits |
| ChippyProps.StepSkip | src/libchippy/chippy.c:78-94 | 3xkk, 4xkk, 5xy_ and 9xy_ end 4 bytes on exactly when their (in)equality holds and 2 bytes on otherwise; nothing else changes (9xy_ is at lines 145-149) |
| ChippyProps.StepLoadByte | src/libchippy/chippy.c:96-98 | 6xkk sets Vx to kk |
| ChippyProps.StepAddByte | src/libchippy/chippy.c:100-102 | 7xkk sets Vx to Vx + kk modulo 256 and does not touch VF |
| ChippyProps.StepArithmetic | src/libchippy/chippy.c:104-143 | 8xyN sets the registers to `Alu(V, x, y, N)` and changes nothing else |
| ChippyProps.AluLogic | src/libchippy/chippy.c:106-116 | 8xy1, 8xy2 and 8xy3 set Vx to Vy, Vx OR Vy and Vx XOR Vy |
| ChippyProps.AluUnlisted | src/libchippy/chippy.c:105-142 | the low nibbles 0, 8 to D and F have no case and change nothing |
| ChippyProps.AluAddSub | src/libchippy/chippy.c:118-136 | for x, y not VF: 8xy4 sets VF to the carry and Vx to the sum modulo 256; 8xy5 sets VF = 1 iff Vx > Vy and Vx to Vx-Vy modulo 256; 8xy7 sets VF = 1 iff Vy > Vx and Vx to Vy-Vx modulo 256 |
| ChippyProps.AndTopBit | src/libchippy/chippy.c:139 | for a below 2^(k+1), `a & 2^k` is nonzero exactly when a is at least 2^k |
| ChippyProps.LowAndHighBit | src/libchippy/chippy.c:129-139 | `a & 1` is the lowest bit of a byte and `(a & 0x80) != 0` tests the highest |
| ChippyProps.AluShift | src/libchippy/chippy.c:128-141 | for x not VF, 8xy6 and 8xyE set VF to the bit shifted out and Vx to Vx/2 or 2Vx modulo 256 |
| ChippyProps.AluFlagFirst | src/libchippy/chippy.c:118-121 | since VF is written first, 8Fy4 leaves VF = carry + Vy modulo 256, and 8xF4 adds the fresh carry instead of the old VF |
| ChippyProps.StepLoadIndex | src/libchippy/chippy.c:151-153 | Annn sets I to nnn |
| ChippyProps.BitwiseAndBelow | src/libchippy/chippy.c:160 | `a & b` never exceeds b |
| ChippyProps.StepRandom | src/libchippy/chippy.c:159-161 | Cxkk sets Vx to the random byte AND kk, which never exceeds kk |
| ChippyProps.StepDraw | src/libchippy/chippy.c:163-177 | Dxyn changes only the display, VF, `pc` and the key wait; registers other than VF keep their values and VF keeps the bits it had; with x, y not VF, bit 0 of VF ends set exactly when it was set or the sprite collides |
| ChippyProps.ExecuteDrawTwice | src/libchippy/chippy.c:163-177 | executing the same in-range Dxyn twice with x, y not VF is in range again and restores the display, and when the sprite has a set bit the second execution leaves bit 0 of VF set |
| ChippyProps.StepKeyIgnored | src/libchippy/chippy.c:179-187 | every Ex__ instruction only advances `pc` |
| ChippyProps.StepMisc | src/libchippy/chippy.c:189-233 | Fx_7 sets Vx to the delay timer, Fx_A records x as the key-wait register, and every other Fx__ only advances `pc` |
| ChippyProps.StepKeyWait | src/libchippy/chippy.c:50-52 | after any step, the key wait is x when the instruction was Fx_A and -1 otherwise |
| ChippyProps.StepFrame | src/libchippy/chippy.c:46-241 | no step changes memory, the keypad or the timers |
| ChippyTests.Insert | tests/opcodes.c:25-28 | the test helper stores the instruction big-endian at the given address |
| ChippyTests.Setup | tests/opcodes.c:17-28 | a test machine is initialised, holds the instruction at 0x200 and has the given registers |
| ChippyTests.ClearScreenScenario | tests/opcodes.c:30-43 | with every cell set, CLS clears them all |
| ChippyTests.ReturnScenario | tests/opcodes.c:45-61 | with 0x210, 0x220, 0x230 pushed, RET goes to 0x230 with `sp` 2 |
| ChippyTests.JumpScenario | tests/opcodes.c:63-72 | 0x1234 jumps to 0x234 |
| ChippyTests.CallScenario | tests/opcodes.c:74-88 | with `sp` 1, 0x2345 leaves `sp` 2 and `pc` 0x345 |
| ChippyTests.SkipScenarios | tests/opcodes.c:90-128 | 0x3212, 0x4299 and 0x5230 with V2 = V3 = 0x12 each end at 0x204 |
| ChippyTests.LoadAddScenarios | tests/opcodes.c:130-150 | 0x6230 loads 0x30 into V2; 0x7120 adds 0x20 to a zero V1 |
| ChippyTests.OrXorValues | tests/opcodes.c:165-191 | 5 OR 3 is 7 and 5 XOR 3 is 6 |
| ChippyTests.LogicScenarios | tests/opcodes.c:152-191 | 0x8121 copies 3 into V1; 0x8122 gives 7 and 0x8123 gives 6 from 5 and 3 |
| ChippyTests.Again | tests/opcodes.c:203-206 | the second half of a two-step test holds the instruction at 0x202 |
| ChippyTests.AddScenario | tests/opcodes.c:193-215 | 5 + 3 is 8 with VF 0, then 200 + 200 is 144 with VF 1 |
| ChippyTests.SubScenario | tests/opcodes.c:217-239 | 5 - 3 is 2 with VF 1, then 3 - 5 is 254 with VF 0 |
| ChippyTests.SubnScenario | tests/opcodes.c:263-285 | Vy - Vx: 5 - 3 is 2 with VF 1, then 3 - 5 is 254 with VF 0 |
| ChippyTests.ShiftRightScenario | tests/opcodes.c:241-261 | 23 >> 1 is 11 with VF 1, then 22 >> 1 is 11 with VF 0 |
| ChippyTests.ShiftLeftStep | src/libchippy/chippy.c:138-141 | a step of 810E on V1 = a gives V1 = 2a modulo 256 and VF = the top bit of a |
| ChippyTests.ShiftLeftScenario | tests/opcodes.c:287-308 | 23 << 1 is 46 with VF 0, then 151 << 1 is 46 modulo 256 with VF 1 |
| Chip8H.SameConstants | src/chip8.h:15-18 | PROGRAM_START, RAM_SIZE, SCREEN_W and SCREEN_H equal libchippy's |
| Chip8H.Glyphs | src/libchippy/chippy.h:42-59 | the glyphs of the first k digits take 5k bytes |
| Chip8H.FontsetPrefix | src/libchippy/chippy.h:42-59 | the first 5k bytes of libchippy's font are the glyphs of the digits below k |
| Chip8H.SameFontset | src/chip8.h:20-37 | this font table has 80 bytes and is byte for byte libchippy's |
| Chip8H.Sizes | src/chip8.h:39-54 | the display has 2048 cells (SCREEN_W · SCREEN_H) and memory 4096 bytes (RAM_SIZE) |
| Chip8Sem.Fetch | src/chip8.c:48 | the instruction is fetched big-endian at `pc`, with no increment |
| Chip8Sem.IsReturn | src/chip8.c:58-59 | RET is a 0-family instruction whose low nibble is E |
| Chip8Sem.CanCycle | src/chip8.c:48 | the fetch reads inside memory and a RET (lines 58-59) pops from a stack with 1 to 16 entries |
| Chip8Sem.Cycle | src/chip8.c:47-74 | a cycle keeps the array sizes |
| Chip8Sem.CycleRejects | src/chip8.c:68-70 | outside the 0 family a cycle returns 1 and leaves the whole state, `pc` included, unchanged |
| Chip8Sem.CycleClears | src/chip8.c:53-56 | a 0-family instruction with low nibble 0 zeroes the display, adds 2 to `pc`, returns 0 and changes nothing else |
| Chip8Sem.CycleReturns | src/chip8.c:58-60 | a 0-family instruction with low nibble E decrements `sp` and continues at the popped address plus 2 |
| Chip8Sem.CycleRejectsSystem | src/chip8.c:62-64 | any other 0-family instruction returns 1 and changes nothing |
| Chip8Sem.CycleStatus | src/chip8.c:50-73 | a cycle returns 0 exactly for 0-family instructions with low nibble 0 or E, and 1 otherwise |
| Chip8Sem.CycleFrame | src/chip8.c:47-74 | no cycle changes memory, V, I, the timers or the keypad |
| Chip8Sem.ReturnConventions | src/chip8.c:59 | on the same machine, `chip8_cycle`'s RET lands 2 bytes after `chippy_step`'s RET (src/libchippy/chippy.c:64) and leaves the same `sp` |
| Chip8.Machine.Snapshot | src/chip8.h:39-54 | the machine's arrays have the sizes of the struct |
| Chip8.Machine.Cycle | src/chip8.c:47-74 | the memset and the stores compute `Chip8Sem.Cycle` of the old state, status included |

## Left out

- `chippy_load_rom` (`src/libchippy/chippy.c:31-44`) and `chip8_new` (`src/chip8.c:18-41`) are file I/O with `fopen` and `fread`. `chip8_new` also allocates only the size of a pointer. Neither is modelled; a machine's memory is whatever the caller has.
- `chippy_destroy` and `chip8_free` only call `free`.
- `rand()` in Cxkk is a call into the C library. The step takes the random byte as a parameter instead.
- The `printf` calls on the failure paths are output only. The model keeps just the return code.
- The SDL front end (`src/chippy/gfx.c`, `gfx.h`), the command-line programs (`src/chippy/main.c`, `src/main.c`) and the test runner `tests/test.c` are not part of this model.
- The code does not decrement the timers, poll the keypad, play sound or block on a key wait. The model has none of these: `waitKey` only records the register and is reset by the next step.
- Chippy.Machine.LoadDelayTimer, Chippy.Machine.LoadSoundTimer, Chippy.Machine.AddToIndex, Chippy.Machine.LoadFontAddress, Chippy.Machine.StoreBcd, Chippy.Machine.StoreRegisters and Chippy.Machine.LoadRegisters: `chippy_step` cannot reach these F bodies, so `Execute` does not call them and no step property mentions them.
- ChippyDraw.DrawCells, ChippyDraw.DrawXorsSprite, ChippyDraw.DrawDefined, ChippyDraw.DrawCollision, ChippyDraw.DrawTwiceRestores and ChippyDraw.DrawTwiceCollides assume x and y are not VF. Otherwise the sprite moves while it is drawn. Such draws are still modelled exactly by `ChippySem.DrawFrom`, with only the register and VF facts of `ChippyDraw.DrawKeepsRegisters` proved about them.
- ChippyProps.AluAddSub and ChippyProps.AluShift are stated for x and y other than VF, because with VF as an operand the flag is overwritten. `ChippyProps.AluFlagFirst` states what happens instead for 8xy4.
- The scenarios of `tests/opcodes.c` are lemmas about the pure step function, not methods that run on a `Chippy.Machine`. The test helper `chippy_create` (`tests/opcodes.c:17-23`) is modelled by `ChippyTests.Setup` on an arbitrary machine.
