/** The CHIP-8 machine state (`struct Chip8`, src/chip8.rs:3-15) and its
    construction (`Chip8::new`, src/chip8.rs:42-67).

    Construction is split the way the source is: the field initialisation of
    lines 43-54 (`Blank`) and the two copy loops of lines 57-64 (`CopyRange`,
    instantiated by `LoadFonts` and `LoadProgram`). As written, both loops index
    their source array with the destination address, so `New` panics on every
    input; `LoadFontsFixed`, `LoadProgramFixed` and `NewFixed` index with the
    offset from the start address and give the machine sixteen registers. */
module Machine {
  import opened Words
  import opened Panics

  /** `registers: [u8; 8]`; the instruction set itself addresses sixteen. */
  const DeclaredRegisterCount: nat := 8
  const StandardRegisterCount: nat := 16
  /** VF, the register the arithmetic opcodes use as their carry flag. */
  const FlagRegister: nat := 0xF
  const MemorySize: nat := 4096
  const StackSize: nat := 16
  const KeyCount: nat := 16
  const VideoSize: nat := 64 * 32

  const CodeStartAddress: nat := 0x200
  const FontsetSize: nat := 80
  const FontsetStartAddress: nat := 0x50

  /** Sixteen glyphs, the hex digits 0 to F, five rows of one byte each. */
  const Fontset: seq<u8> := [
    0xF0, 0x90, 0x90, 0x90, 0xF0, // 0
    0x20, 0x60, 0x20, 0x20, 0x70, // 1
    0xF0, 0x10, 0xF0, 0x80, 0xF0, // 2
    0xF0, 0x10, 0xF0, 0x10, 0xF0, // 3
    0x90, 0x90, 0xF0, 0x10, 0x10, // 4
    0xF0, 0x80, 0xF0, 0x10, 0xF0, // 5
    0xF0, 0x80, 0xF0, 0x90, 0xF0, // 6
    0xF0, 0x10, 0x20, 0x40, 0x40, // 7
    0xF0, 0x90, 0xF0, 0x90, 0xF0, // 8
    0xF0, 0x90, 0xF0, 0x10, 0xF0, // 9
    0xF0, 0x90, 0xF0, 0x90, 0x90, // A
    0xE0, 0x90, 0xE0, 0x90, 0xE0, // B
    0xF0, 0x80, 0x80, 0x80, 0xF0, // C
    0xE0, 0x90, 0x90, 0x90, 0xE0, // D
    0xF0, 0x80, 0xF0, 0x80, 0xF0, // E
    0xF0, 0x80, 0xF0, 0x80, 0x80  // F
  ]

  /** The emulator state. The fixed array lengths of the Rust struct are the
      `WellFormed` invariant, except the register file, whose length is left
      open so that the declared eight-cell file and a sixteen-cell one can both
      be stated; handlers bounds-check register indices against it. */
  datatype Chip8 = Chip8(
    registers: seq<u8>,
    memory: seq<u8>,
    stack: seq<u16>,
    keys: seq<bool>,
    video: seq<u32>,
    indexRegister: u16,
    pc: u16,
    stackPointer: u8,
    delayTimer: u8)
  {
    predicate WellFormed() {
      && |memory| == MemorySize
      && |stack| == StackSize
      && |keys| == KeyCount
      && |video| == VideoSize
    }

    /** The state exactly as the struct declares it: eight registers. */
    predicate Declared() {
      WellFormed() && |registers| == DeclaredRegisterCount
    }
  }

  /** Every field other than memory holds the value `new` gives it. */
  predicate ResetExceptMemory(c: Chip8, registerCount: nat) {
    && c.WellFormed()
    && |c.registers| == registerCount
    && (forall i :: 0 <= i < |c.registers| ==> c.registers[i] == 0)
    && (forall i :: 0 <= i < |c.stack| ==> c.stack[i] == 0)
    && (forall k :: 0 <= k < |c.keys| ==> !c.keys[k])
    && (forall p :: 0 <= p < |c.video| ==> c.video[p] == 0)
    && c.indexRegister == 0
    && c.pc == CodeStartAddress
    && c.stackPointer == 0
    && c.delayTimer == 0
  }

  /** The struct literal that starts `new`, before either copy loop runs. */
  function Blank(registerCount: nat): (c: Chip8)
    ensures ResetExceptMemory(c, registerCount)
    ensures forall a :: 0 <= a < |c.memory| ==> c.memory[a] == 0
  {
    Chip8(
      seq(registerCount, _ => 0),
      seq(MemorySize, _ => 0),
      seq(StackSize, _ => 0),
      seq(KeyCount, _ => false),
      seq(VideoSize, _ => 0),
      0, CodeStartAddress as u16, 0, 0)
  }

  function Max(a: int, b: int): int { if a < b then b else a }
  function Min(a: int, b: int): int { if a < b then a else b }

  /** The panic that stops a copy loop starting at `lo`: the first address
      whose source read or destination write is out of bounds, with the read
      reported first because Rust evaluates the right-hand side of `=` first. */
  function FirstCopyPanic(memoryLen: nat, srcLen: nat, shift: nat, lo: nat): Panic
    requires shift <= lo
  {
    var k := Max(lo, Min(srcLen + shift, memoryLen));
    if k - shift >= srcLen then IndexOutOfBounds(k - shift, srcLen)
    else IndexOutOfBounds(k, memoryLen)
  }

  /** `for i in lo..hi { memory[i] = src[i - shift]; }`. The source loops use
      `shift` 0; the corrected ones use the start address. */
  function CopyRange(memory: seq<u8>, src: seq<u8>, shift: nat, lo: nat, hi: nat): (r: Result<seq<u8>>)
    requires shift <= lo
    ensures r.Ok? <==> hi <= lo || (hi - shift <= |src| && hi <= |memory|)
    ensures r.Ok? ==> |r.value| == |memory|
    ensures r.Ok? ==> forall a :: 0 <= a < |memory| ==>
      r.value[a] == if lo <= a < hi then src[a - shift] else memory[a]
    ensures r.Panicked? ==> r.panic == FirstCopyPanic(|memory|, |src|, shift, lo)
    decreases hi - lo
  {
    if hi <= lo then Ok(memory)
    else if lo - shift >= |src| then Panicked(IndexOutOfBounds(lo - shift, |src|))
    else if lo >= |memory| then Panicked(IndexOutOfBounds(lo, |memory|))
    else CopyRange(memory[lo := src[lo - shift]], src, shift, lo + 1, hi)
  }

  /** The font loop as written reads `FONTSET[i]` for `i` from 0x50 = 80, one
      past the last glyph byte, so it panics before writing anything. */
  function LoadFonts(memory: seq<u8>): (r: Result<seq<u8>>)
    ensures r == Panicked(IndexOutOfBounds(FontsetSize, FontsetSize))
  {
    CopyRange(memory, Fontset, 0, FontsetStartAddress, FontsetStartAddress + FontsetSize)
  }

  /** The program loop as written reads `program[i]` for `i` from 0x200, so it
      completes only for an empty program. */
  function LoadProgram(memory: seq<u8>, program: seq<u8>): (r: Result<seq<u8>>)
    ensures |program| == 0 ==> r == Ok(memory)
    ensures |memory| == MemorySize ==> (r.Ok? <==> |program| == 0)
    ensures |memory| == MemorySize && 0 < |program| <= CodeStartAddress ==>
      r == Panicked(IndexOutOfBounds(CodeStartAddress, |program|))
    ensures |memory| == MemorySize && CodeStartAddress < |program| <= MemorySize ==>
      r == Panicked(IndexOutOfBounds(|program|, |program|))
    ensures |memory| == MemorySize && MemorySize < |program| ==>
      r == Panicked(IndexOutOfBounds(MemorySize, MemorySize))
  {
    CopyRange(memory, program, 0, CodeStartAddress, CodeStartAddress + |program|)
  }

  /** `Chip8::new` as written: it cannot return a machine for any program. */
  function New(program: seq<u8>): (r: Result<Chip8>)
    ensures r == Panicked(IndexOutOfBounds(FontsetSize, FontsetSize))
  {
    var chip := Blank(DeclaredRegisterCount);
    match LoadFonts(chip.memory)
    case Panicked(p) => Panicked(p)
    case Ok(fonts) =>
      match LoadProgram(fonts, program)
      case Panicked(p) => Panicked(p)
      case Ok(loaded) => Ok(chip.(memory := loaded))
  }

  /** The font loop with `FONTSET[i - FONTSET_START_ADDRESS]`. */
  function LoadFontsFixed(memory: seq<u8>): (r: Result<seq<u8>>)
    requires |memory| == MemorySize
    ensures r.Ok? && |r.value| == MemorySize
    ensures forall a :: 0 <= a < MemorySize ==>
      r.value[a] == if FontsetStartAddress <= a < FontsetStartAddress + FontsetSize
                    then Fontset[a - FontsetStartAddress] else memory[a]
  {
    CopyRange(memory, Fontset, FontsetStartAddress, FontsetStartAddress, FontsetStartAddress + FontsetSize)
  }

  /** The program loop with `program[i - CODE_START_ADDRESS]`: it completes
      exactly when the program fits between 0x200 and the end of memory. */
  function LoadProgramFixed(memory: seq<u8>, program: seq<u8>): (r: Result<seq<u8>>)
    requires |memory| == MemorySize
    ensures r.Ok? <==> |program| <= MemorySize - CodeStartAddress
    ensures r.Ok? ==> |r.value| == MemorySize
    ensures r.Ok? ==> forall a :: 0 <= a < MemorySize ==>
      r.value[a] == if CodeStartAddress <= a < CodeStartAddress + |program|
                    then program[a - CodeStartAddress] else memory[a]
    ensures r.Panicked? ==> r.panic == IndexOutOfBounds(MemorySize, MemorySize)
  {
    CopyRange(memory, program, CodeStartAddress, CodeStartAddress, CodeStartAddress + |program|)
  }

  /** The memory image a corrected `new` produces: glyphs at 0x50, the program
      at 0x200, zero everywhere else. */
  predicate LoadedImage(memory: seq<u8>, program: seq<u8>) {
    && |memory| == MemorySize
    && forall a :: 0 <= a < MemorySize ==>
         memory[a] == if FontsetStartAddress <= a < FontsetStartAddress + FontsetSize
                      then Fontset[a - FontsetStartAddress]
                      else if CodeStartAddress <= a < CodeStartAddress + |program|
                      then program[a - CodeStartAddress]
                      else 0
  }

  /** `Chip8::new` with both copy loops corrected and sixteen registers. */
  function NewFixed(program: seq<u8>): (r: Result<Chip8>)
    ensures r.Ok? <==> |program| <= MemorySize - CodeStartAddress
    ensures r.Ok? ==> ResetExceptMemory(r.value, StandardRegisterCount)
    ensures r.Ok? ==> LoadedImage(r.value.memory, program)
    ensures r.Panicked? ==> r.panic == IndexOutOfBounds(MemorySize, MemorySize)
  {
    var chip := Blank(StandardRegisterCount);
    var fonts := LoadFontsFixed(chip.memory).value;
    var loaded :- LoadProgramFixed(fonts, program);
    Ok(chip.(memory := loaded))
  }
}
