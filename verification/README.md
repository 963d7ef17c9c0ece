# CHIP-8 machine state and opcode handlers

A Dafny model of the core of a CHIP-8 emulator written in Rust: the `Chip8`
machine record (registers, 4096 bytes of memory, a 16-entry stack, 16 keys,
a 64×32 framebuffer, the index register, pc, stack pointer and delay timer),
its constructor `Chip8::new`, and the opcode handlers that have bodies:
00E0, 1NNN, 3XNN, 4XNN, 5XY0, 6XNN, 7XNN and 8XY0 to 8XY4.

The state is an immutable datatype (`Machine.Chip8`). Each handler is a pure
function from a state to the next state. Rust aborts on an out-of-range array
index, so a handler that indexes registers returns `Panics.Result`: either the
new state or the `IndexOutOfBounds(index, len)` panic of its first bad access.
Register indices are unbounded `nat`s, as `usize` is to the model.

Modules:

- `Words` (words.dfy): `u8`/`u16`/`u32`, wrapping `+=`, and `|`, `&`, `^` defined
  bit by bit, with their bit-level characterisation and algebra.
- `Panics` (panics.dfy): the panic outcome of a call.
- `Machine` (machine.dfy): the state, its constants, the field initialisation of
  `new`, the two copy loops, `new` as written, and a corrected `new`.
- `Opcodes` (opcodes.dfy): one function per implemented handler, with frame
  conditions ("nothing else changes") in every contract.
- `OpcodeProperties` (properties.dfy): properties that relate several calls.

Arithmetic: Rust's `u8 +=` and `u16 +=` panic on overflow in a debug build and
wrap in a release build. The model wraps: modulo 256 for registers and
modulo 65536 for pc.

Where the usual CHIP-8 description (sixteen registers V0 to VF, pc advanced on
fetch, 8XY0 to 8XY3 reading VY) and this code disagree, the model follows the
code:

- The register file has 8 cells, not 16. 8XY4 writes VF (index 15) and so panics
  on the declared file. The register count is a free length in the model, so both
  files can be stated.
- 8XY0 to 8XY3 take a byte operand `nn`, not a register index Y.
- A handler does not advance pc by 2 itself. Only the skips add 2. Fetch is not
  in this code.
- An oversized program is not rejected with an error. Even in the corrected
  constructor, the copy loop panics with index 4096 in an array of length 4096.

## Model

| member | source | states |
|---|---|---|
| Machine.Blank | src/chip8.rs:43-54 | the freshly built record has pc 0x200; index register, stack pointer and delay timer 0; every register, stack slot, memory byte and video cell 0; every key released; arrays at their declared lengths |
| Machine.CopyRange | src/chip8.rs:57-64 | a `for i in lo..hi { memory[i] = src[i - shift] }` loop completes iff the range is empty or every read and write is in bounds. It then holds `src` over the range and the old memory elsewhere. Otherwise it panics at the first out-of-range index, and the source read is reported before the destination write |
| Machine.LoadFonts | src/chip8.rs:57-59 | the font loop as written panics with index 80 in the 80-byte glyph table for every memory |
| Machine.LoadProgram | src/chip8.rs:62-64 | the program loop as written completes iff the program is empty. It panics at index 0x200 for programs of at most 512 bytes, at index len for longer programs that fit in 4096 bytes, and at memory index 4096 beyond that |
| Machine.New | src/chip8.rs:42-67 | `new` as written panics (index 80, length 80) for every program |
| Machine.LoadFontsFixed | src/chip8.rs:57-59 | with the glyph index offset by 0x50, the loop always completes and places the 80 glyph bytes at 0x50..0xA0, leaving other memory unchanged |
| Machine.LoadProgramFixed | src/chip8.rs:62-64 | with the program index offset by 0x200, the loop completes iff the program has at most 4096 − 0x200 bytes. It places the program at 0x200 and otherwise panics at memory index 4096 |
| Machine.NewFixed | src/chip8.rs:42-67 | the corrected constructor succeeds iff the program fits. It returns a reset 16-register machine whose memory holds the glyphs at 0x50, the program at 0x200 and zero elsewhere |
| Opcodes.Op00E0 | src/chip8.rs:73-77 | every one of the 64×32 video cells becomes 0 and no other field changes |
| Opcodes.Op1NNN | src/chip8.rs:85-87 | pc becomes `nnn` and no other field changes |
| Opcodes.Op3XNN | src/chip8.rs:95-99 | panics iff `vx` is out of range. Otherwise only pc may change: it advances by 2 (mod 65536) iff VX == nn and is unchanged iff VX != nn |
| Opcodes.Op4XNN | src/chip8.rs:102-106 | panics iff `vx` is out of range. Otherwise only pc may change: it advances by 2 iff VX != nn and is unchanged iff VX == nn |
| Opcodes.Op5XY0 | src/chip8.rs:109-113 | panics on the first out-of-range operand, `vx` before `vy`. Otherwise only pc may change: it advances by 2 iff VX == VY |
| Opcodes.Op6XNN | src/chip8.rs:116-118 | panics iff `vx` is out of range. Otherwise VX becomes nn and no other register or field changes |
| Opcodes.Op7XNN | src/chip8.rs:120-123 | panics iff `vx` is out of range. Otherwise VX becomes the sum VX + nn or that sum minus 256 (wrapping). No other register, VF included, and no other field changes |
| Opcodes.Op8XY0 | src/chip8.rs:125-128 | panics iff `vx` is out of range. Otherwise VX becomes the byte operand and nothing else changes |
| Opcodes.Op8XY1 | src/chip8.rs:130-133 | each of the 8 bits of the new VX is the OR of that bit of the old VX and of nn. Only VX changes |
| Opcodes.Op8XY2 | src/chip8.rs:135-138 | each bit of the new VX is the AND of that bit of the old VX and of nn. Only VX changes |
| Opcodes.Op8XY3 | src/chip8.rs:140-143 | each bit of the new VX is the XOR of that bit of the old VX and of nn. Only VX changes |
| Opcodes.Op8XY4 | src/chip8.rs:145-155 | panics on `vx`, then `vy`, then index 15 when out of range. Otherwise VF is 1 iff the old VX + VY ≥ 256 and 0 otherwise (unless vx = 15). VX becomes the wrapped sum read after the flag write, so the new flag is the addend when vy = 15 and the augend when vx = 15. Only VX and VF change |
| Words.BitOfBitwise | src/chip8.rs:130-143 | bit i of `a op b` is `op` applied to bit i of `a` and bit i of `b`, for `|`, `&` and `^` |
| Words.OrAndIdempotent | src/chip8.rs:130-138 | `(a op n) op n == a op n` for `|` and `&` |
| Words.XorInvolution | src/chip8.rs:140-143 | `(a ^ n) ^ n == a` for an `a` of the given width |
| Words.BitsDetermineValue | src/chip8.rs:130-143 | two values below 2^w with equal low w bits are equal, so the bit-by-bit contracts of 8XY1 to 8XY3 determine the new VX |
| OpcodeProperties.Op00E0Idempotent | src/chip8.rs:73-77 | clearing the screen twice equals clearing it once |
| OpcodeProperties.SkipsComplementary | src/chip8.rs:95-106 | for the same state and operands, exactly one of 3XNN and 4XNN advances pc. One returns the state unchanged, the other the state with pc + 2 |
| OpcodeProperties.Op5XY0Symmetric | src/chip8.rs:109-113 | 5XY0 gives the same outcome with its two in-range operands swapped |
| OpcodeProperties.Op5XY0SameRegisterSkips | src/chip8.rs:109-113 | 5XY0 with X == Y always skips |
| OpcodeProperties.Op7XNNKeepsFlag | src/chip8.rs:120-123 | 7XNN on a register other than VF leaves VF unchanged |
| OpcodeProperties.Op8XY1Idempotent | src/chip8.rs:130-133 | applying 8XY1 twice with the same operand equals applying it once |
| OpcodeProperties.Op8XY2Idempotent | src/chip8.rs:135-138 | applying 8XY2 twice with the same operand equals applying it once |
| OpcodeProperties.Op8XY3Involution | src/chip8.rs:140-143 | applying 8XY3 twice with the same operand restores the original state |
| OpcodeProperties.Op8XY4FullAdder | src/chip8.rs:145-155 | with neither operand VF, new VX + 256 × new VF equals old VX + old VY |
| OpcodeProperties.Op8XY4Examples | src/chip8.rs:145-155 | with at least 16 registers, VX = 0xFF plus VY = 0x01 gives VX = 0x00 and VF = 1, and VX = 0x01 plus VY = 0x01 gives VX = 0x02 and VF = 0 |
| OpcodeProperties.Op8XY4PanicsOnDeclaredFile | src/chip8.rs:146-155 | on the 8-cell register file, 8XY4 always panics. With in-range operands it panics writing index 15 of length 8 |
| OpcodeProperties.NewFixedReadBack | src/chip8.rs:56-64 | after the corrected constructor, memory from 0x200 reads back the program and memory from 0x50 reads back the glyph table |
| OpcodeProperties.NewFixedAddsWithCarry | src/chip8.rs:146-155 | on a machine from the corrected constructor, 8XY4 completes for every pair of register indices below 16 |

## Left out

- The handlers with empty bodies are not modelled, not even as no-ops: 00EE, 2NNN and 8XY5 through FX65 (src/chip8.rs:80-82, 90-92, 158-263). Their comments describe behaviour the code does not have.
- Fetch, decode and the `cycle` step are not modelled. Neither are `set_key`, `get_video`, `VIDEO_WIDTH` and `VIDEO_HEIGHT`. The callers use them, but src/chip8.rs does not define them, so there is no dispatcher or timer tick to model.
- src/main.rs is not modelled. It holds argument parsing, ROM file reading, the SDL event loop, the keyboard-to-keypad table and frame sleeping, all I/O.
- src/display.rs is not modelled. It is a wrapper over the SDL window and canvas.
- Debug-build overflow panics of `+=` are not modelled (7XNN, 8XY4, and pc in 3XNN, 4XNN and 5XY0). The model follows release-build wrapping.
- The stack, stack pointer, keys and delay timer are only initialised. No implemented handler reads or writes them.
- Opcodes.Op00E0: requires the state's arrays to have their declared lengths. The Rust array types guarantee this, so the clear loop cannot go out of bounds.

## Findings

| source | as written | input that shows it | evidently intended | confidence | as-written member | corrected member |
|---|---|---|---|---|---|---|
| src/chip8.rs:57-58 | the font loop copies `FONTSET[i]` for i from 0x50 to 0x9F into `memory[i]`, but the table has 80 entries | any program, including the empty one: the first read is `FONTSET[80]` | `memory[i] = FONTSET[i - 0x50]` | high; not executed | Machine.LoadFonts | Machine.LoadFontsFixed |
| src/chip8.rs:62-63 | the program loop copies `program[i]` for i from 0x200, reading the program at the memory address | a one-byte program: the first read is `program[0x200]` of a length-1 vector | `memory[i] = program[i - 0x200]` | high; not executed | Machine.LoadProgram | Machine.LoadProgramFixed |
| src/chip8.rs:4 | the register file is declared with 8 cells, but 8XY4 writes `registers[0xF]` | 8XY4 with X = Y = 0 on any state: the VF write panics at index 15 of length 8 | 16 registers, V0 to VF | high; not executed | OpcodeProperties.Op8XY4PanicsOnDeclaredFile | OpcodeProperties.NewFixedAddsWithCarry |

