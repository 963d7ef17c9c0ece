/** Properties relating several handler calls, and the consequences of the
    register-file size for 8XY4. */
module OpcodeProperties {
  import opened Words
  import opened Panics
  import opened Machine
  import opened Opcodes

  /** Clearing a cleared screen changes nothing. */
  lemma Op00E0Idempotent(c: Chip8)
    requires c.WellFormed()
    ensures Op00E0(Op00E0(c)) == Op00E0(c)
  {
  }

  /** For the same state and operands exactly one of 3XNN and 4XNN skips: one
      returns the state unchanged and the other the state with pc advanced. */
  lemma SkipsComplementary(c: Chip8, vx: nat, nn: u8)
    requires vx < |c.registers|
    ensures Op3XNN(c, vx, nn).Ok? && Op4XNN(c, vx, nn).Ok?
    ensures Op3XNN(c, vx, nn).value != Op4XNN(c, vx, nn).value
    ensures {Op3XNN(c, vx, nn).value, Op4XNN(c, vx, nn).value} == {c, c.(pc := SkipNext(c.pc))}
  {
  }

  /** 5XY0 does not depend on the order of its two register operands. */
  lemma Op5XY0Symmetric(c: Chip8, vx: nat, vy: nat)
    requires vx < |c.registers| && vy < |c.registers|
    ensures Op5XY0(c, vx, vy) == Op5XY0(c, vy, vx)
  {
  }

  /** Comparing a register with itself always skips. */
  lemma Op5XY0SameRegisterSkips(c: Chip8, vx: nat)
    requires vx < |c.registers|
    ensures Op5XY0(c, vx, vx) == Ok(c.(pc := SkipNext(c.pc)))
  {
  }

  /** 7XNN leaves the carry flag alone whenever it does not target VF itself. */
  lemma Op7XNNKeepsFlag(c: Chip8, vx: nat, nn: u8)
    requires vx < |c.registers| && FlagRegister < |c.registers| && vx != FlagRegister
    ensures Op7XNN(c, vx, nn).Ok?
    ensures Op7XNN(c, vx, nn).value.registers[FlagRegister] == c.registers[FlagRegister]
  {
  }

  /** `VX |= nn` twice is `VX |= nn` once. */
  lemma Op8XY1Idempotent(c: Chip8, vx: nat, nn: u8)
    requires vx < |c.registers|
    ensures Op8XY1(Op8XY1(c, vx, nn).value, vx, nn) == Op8XY1(c, vx, nn)
  {
    var once := Bitwise(Or, c.registers[vx], nn, 8);
    var first := c.(registers := c.registers[vx := once]);
    assert Op8XY1(c, vx, nn) == Ok(first);
    OrAndIdempotent(Or, c.registers[vx], nn, 8);
    assert first.registers[vx := Bitwise(Or, once, nn, 8)] == first.registers;
  }

  /** `VX &= nn` twice is `VX &= nn` once. */
  lemma Op8XY2Idempotent(c: Chip8, vx: nat, nn: u8)
    requires vx < |c.registers|
    ensures Op8XY2(Op8XY2(c, vx, nn).value, vx, nn) == Op8XY2(c, vx, nn)
  {
    var once := Bitwise(And, c.registers[vx], nn, 8);
    var first := c.(registers := c.registers[vx := once]);
    assert Op8XY2(c, vx, nn) == Ok(first);
    OrAndIdempotent(And, c.registers[vx], nn, 8);
    assert first.registers[vx := Bitwise(And, once, nn, 8)] == first.registers;
  }

  /** `VX ^= nn` twice restores the state. */
  lemma Op8XY3Involution(c: Chip8, vx: nat, nn: u8)
    requires vx < |c.registers|
    ensures Op8XY3(Op8XY3(c, vx, nn).value, vx, nn) == Ok(c)
  {
    var once := Bitwise(Xor, c.registers[vx], nn, 8);
    var first := c.(registers := c.registers[vx := once]);
    assert Op8XY3(c, vx, nn) == Ok(first);
    assert Pow2(8) == 0x100;
    XorInvolution(c.registers[vx], nn, 8);
    assert first.registers[vx := Bitwise(Xor, once, nn, 8)] == c.registers;
  }

  /** When neither operand is VF, 8XY4 is a full adder: the new VX plus 256
      times the new VF is the exact sum of the old VX and VY. */
  lemma Op8XY4FullAdder(c: Chip8, vx: nat, vy: nat)
    requires FlagRegister < |c.registers| && vx < |c.registers| && vy < |c.registers|
    requires vx != FlagRegister && vy != FlagRegister
    ensures Op8XY4(c, vx, vy).Ok?
    ensures Op8XY4(c, vx, vy).value.registers[vx] as int + 0x100 * Op8XY4(c, vx, vy).value.registers[FlagRegister] as int
            == c.registers[vx] as int + c.registers[vy]
  {
  }

  /** Two worked cases: 0xFF + 0x01 gives 0x00 with carry, 0x01 + 0x01 gives 0x02 without. */
  lemma Op8XY4Examples(c: Chip8)
    requires FlagRegister < |c.registers|
    requires c.registers[0] == 0xFF && c.registers[1] == 0x01 && c.registers[2] == 0x01
    ensures Op8XY4(c, 0, 1).Ok? && Op8XY4(c, 2, 1).Ok?
    ensures Op8XY4(c, 0, 1).value.registers[0] == 0x00 && Op8XY4(c, 0, 1).value.registers[FlagRegister] == 1
    ensures Op8XY4(c, 2, 1).value.registers[2] == 0x02 && Op8XY4(c, 2, 1).value.registers[FlagRegister] == 0
  {
  }

  /** On the eight-register file the struct declares, 8XY4 never completes:
      in-range operands reach the write of VF, index 15, and panic there. */
  lemma Op8XY4PanicsOnDeclaredFile(c: Chip8, vx: nat, vy: nat)
    requires c.Declared()
    ensures Op8XY4(c, vx, vy).Panicked?
    ensures vx < DeclaredRegisterCount && vy < DeclaredRegisterCount ==>
      Op8XY4(c, vx, vy) == Panicked(IndexOutOfBounds(FlagRegister, DeclaredRegisterCount))
  {
  }

  /** A machine built by the corrected constructor holds the whole program from
      0x200 and the whole glyph table from 0x50. */
  lemma NewFixedReadBack(program: seq<u8>)
    requires |program| <= MemorySize - CodeStartAddress
    ensures NewFixed(program).Ok?
    ensures NewFixed(program).value.memory[CodeStartAddress..CodeStartAddress + |program|] == program
    ensures NewFixed(program).value.memory[FontsetStartAddress..FontsetStartAddress + FontsetSize] == Fontset
  {
  }

  /** With sixteen registers, 8XY4 completes for every pair of register indices. */
  lemma NewFixedAddsWithCarry(program: seq<u8>, vx: nat, vy: nat)
    requires |program| <= MemorySize - CodeStartAddress
    requires vx < StandardRegisterCount && vy < StandardRegisterCount
    ensures NewFixed(program).Ok?
    ensures Op8XY4(NewFixed(program).value, vx, vy).Ok?
  {
  }
}
