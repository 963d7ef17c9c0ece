/** The opcode handlers of src/chip8.rs that have bodies (lines 73-155), one
    pure transition per handler. Register indices are `usize` in the source and
    every access is bounds-checked, so a handler yields the panic of its first
    out-of-range access instead of a state. `+=` wraps as in a release build. */
module Opcodes {
  import opened Words
  import opened Panics
  import opened Machine

  /** `r` differs from `c` at most in the program counter. */
  predicate OnlyPcChanged(c: Chip8, r: Chip8) {
    r.(pc := c.pc) == c
  }

  /** `r` differs from `c` at most in the framebuffer. */
  predicate OnlyVideoChanged(c: Chip8, r: Chip8) {
    r.(video := c.video) == c
  }

  /** `r` differs from `c` at most in the registers whose indices are in `changed`. */
  predicate OnlyRegistersChanged(c: Chip8, r: Chip8, changed: set<nat>) {
    && r.(registers := c.registers) == c
    && |r.registers| == |c.registers|
    && forall i :: 0 <= i < |c.registers| && i !in changed ==> r.registers[i] == c.registers[i]
  }

  /** The program counter after skipping one two-byte instruction (`pc += 2`). */
  function SkipNext(pc: u16): u16 {
    WrappingAdd16(pc, 2)
  }

  /** 00E0: clear the screen. */
  function Op00E0(c: Chip8): (r: Chip8)
    requires c.WellFormed()
    ensures r.WellFormed()
    ensures OnlyVideoChanged(c, r)
    ensures forall p :: 0 <= p < |r.video| ==> r.video[p] == 0
  {
    c.(video := seq(VideoSize, _ => 0))
  }

  /** 1NNN: jump to `nnn`. */
  function Op1NNN(c: Chip8, nnn: u16): (r: Chip8)
    ensures OnlyPcChanged(c, r)
    ensures r.pc == nnn
  {
    c.(pc := nnn)
  }

  /** 3XNN: skip the next instruction if VX equals `nn`. */
  function Op3XNN(c: Chip8, vx: nat, nn: u8): (r: Result<Chip8>)
    ensures r.Ok? <==> vx < |c.registers|
    ensures r.Panicked? ==> r.panic == IndexOutOfBounds(vx, |c.registers|)
    ensures r.Ok? ==> OnlyPcChanged(c, r.value)
    ensures r.Ok? ==> (r.value.pc == SkipNext(c.pc) <==> c.registers[vx] == nn)
    ensures r.Ok? ==> (r.value.pc == c.pc <==> c.registers[vx] != nn)
  {
    if vx >= |c.registers| then Panicked(IndexOutOfBounds(vx, |c.registers|))
    else if c.registers[vx] == nn then Ok(c.(pc := SkipNext(c.pc)))
    else Ok(c)
  }

  /** 4XNN: skip the next instruction if VX does not equal `nn`. */
  function Op4XNN(c: Chip8, vx: nat, nn: u8): (r: Result<Chip8>)
    ensures r.Ok? <==> vx < |c.registers|
    ensures r.Panicked? ==> r.panic == IndexOutOfBounds(vx, |c.registers|)
    ensures r.Ok? ==> OnlyPcChanged(c, r.value)
    ensures r.Ok? ==> (r.value.pc == SkipNext(c.pc) <==> c.registers[vx] != nn)
    ensures r.Ok? ==> (r.value.pc == c.pc <==> c.registers[vx] == nn)
  {
    if vx >= |c.registers| then Panicked(IndexOutOfBounds(vx, |c.registers|))
    else if c.registers[vx] != nn then Ok(c.(pc := SkipNext(c.pc)))
    else Ok(c)
  }

  /** 5XY0: skip the next instruction if VX equals VY. VX is read first, so an
      out-of-range `vx` is the one reported. */
  function Op5XY0(c: Chip8, vx: nat, vy: nat): (r: Result<Chip8>)
    ensures r.Ok? <==> vx < |c.registers| && vy < |c.registers|
    ensures vx >= |c.registers| ==> r == Panicked(IndexOutOfBounds(vx, |c.registers|))
    ensures vx < |c.registers| <= vy ==> r == Panicked(IndexOutOfBounds(vy, |c.registers|))
    ensures r.Ok? ==> OnlyPcChanged(c, r.value)
    ensures r.Ok? ==> (r.value.pc == SkipNext(c.pc) <==> c.registers[vx] == c.registers[vy])
    ensures r.Ok? ==> (r.value.pc == c.pc <==> c.registers[vx] != c.registers[vy])
  {
    if vx >= |c.registers| then Panicked(IndexOutOfBounds(vx, |c.registers|))
    else if vy >= |c.registers| then Panicked(IndexOutOfBounds(vy, |c.registers|))
    else if c.registers[vx] == c.registers[vy] then Ok(c.(pc := SkipNext(c.pc)))
    else Ok(c)
  }

  /** 6XNN: set VX to `nn`. */
  function Op6XNN(c: Chip8, vx: nat, nn: u8): (r: Result<Chip8>)
    ensures r.Ok? <==> vx < |c.registers|
    ensures r.Panicked? ==> r.panic == IndexOutOfBounds(vx, |c.registers|)
    ensures r.Ok? ==> OnlyRegistersChanged(c, r.value, {vx})
    ensures r.Ok? ==> r.value.registers[vx] == nn
  {
    if vx >= |c.registers| then Panicked(IndexOutOfBounds(vx, |c.registers|))
    else Ok(c.(registers := c.registers[vx := nn]))
  }

  /** 7XNN: add `nn` to VX, wrapping modulo 256; the carry flag is left alone
      (for `vx` other than 0xF, VF keeps its value). */
  function Op7XNN(c: Chip8, vx: nat, nn: u8): (r: Result<Chip8>)
    ensures r.Ok? <==> vx < |c.registers|
    ensures r.Panicked? ==> r.panic == IndexOutOfBounds(vx, |c.registers|)
    ensures r.Ok? ==> OnlyRegistersChanged(c, r.value, {vx})
    ensures r.Ok? ==> (r.value.registers[vx] as int == c.registers[vx] as int + nn
                       || r.value.registers[vx] as int + 0x100 == c.registers[vx] as int + nn)
  {
    if vx >= |c.registers| then Panicked(IndexOutOfBounds(vx, |c.registers|))
    else Ok(c.(registers := c.registers[vx := WrappingAdd8(c.registers[vx], nn)]))
  }

  /** 8XY0: set VX to the byte `nn`. The handler takes a byte `nn`, although its
      comment describes setting VX to VY; its body is the same as 6XNN's. */
  function Op8XY0(c: Chip8, vx: nat, nn: u8): (r: Result<Chip8>)
    ensures r.Ok? <==> vx < |c.registers|
    ensures r.Panicked? ==> r.panic == IndexOutOfBounds(vx, |c.registers|)
    ensures r.Ok? ==> OnlyRegistersChanged(c, r.value, {vx})
    ensures r.Ok? ==> r.value.registers[vx] == nn
  {
    Op6XNN(c, vx, nn)
  }

  /** The shared shape of 8XY1, 8XY2 and 8XY3: `registers[vx] op= nn`. */
  function BitwiseAssign(c: Chip8, vx: nat, op: BitwiseOp, nn: u8): (r: Result<Chip8>)
    ensures r.Ok? <==> vx < |c.registers|
    ensures r.Panicked? ==> r.panic == IndexOutOfBounds(vx, |c.registers|)
    ensures r.Ok? ==> OnlyRegistersChanged(c, r.value, {vx})
    ensures r.Ok? ==> forall i :: 0 <= i < 8 ==>
      Bit(r.value.registers[vx], i) == Combine(op, Bit(c.registers[vx], i), Bit(nn, i))
  {
    if vx >= |c.registers| then Panicked(IndexOutOfBounds(vx, |c.registers|))
    else
      var v := Bitwise(op, c.registers[vx], nn, 8);
      assert forall i :: 0 <= i < 8 ==> Bit(v, i) == Combine(op, Bit(c.registers[vx], i), Bit(nn, i)) by {
        forall i | 0 <= i < 8 {
          BitOfBitwise(op, c.registers[vx], nn, 8, i);
        }
      }
      Ok(c.(registers := c.registers[vx := v]))
  }

  /** 8XY1: VX |= nn. */
  function Op8XY1(c: Chip8, vx: nat, nn: u8): (r: Result<Chip8>)
    ensures r.Ok? <==> vx < |c.registers|
    ensures r.Panicked? ==> r.panic == IndexOutOfBounds(vx, |c.registers|)
    ensures r.Ok? ==> OnlyRegistersChanged(c, r.value, {vx})
    ensures r.Ok? ==> forall i :: 0 <= i < 8 ==>
      Bit(r.value.registers[vx], i) == (Bit(c.registers[vx], i) || Bit(nn, i))
  {
    BitwiseAssign(c, vx, Or, nn)
  }

  /** 8XY2: VX &= nn. */
  function Op8XY2(c: Chip8, vx: nat, nn: u8): (r: Result<Chip8>)
    ensures r.Ok? <==> vx < |c.registers|
    ensures r.Panicked? ==> r.panic == IndexOutOfBounds(vx, |c.registers|)
    ensures r.Ok? ==> OnlyRegistersChanged(c, r.value, {vx})
    ensures r.Ok? ==> forall i :: 0 <= i < 8 ==>
      Bit(r.value.registers[vx], i) == (Bit(c.registers[vx], i) && Bit(nn, i))
  {
    BitwiseAssign(c, vx, And, nn)
  }

  /** 8XY3: VX ^= nn. */
  function Op8XY3(c: Chip8, vx: nat, nn: u8): (r: Result<Chip8>)
    ensures r.Ok? <==> vx < |c.registers|
    ensures r.Panicked? ==> r.panic == IndexOutOfBounds(vx, |c.registers|)
    ensures r.Ok? ==> OnlyRegistersChanged(c, r.value, {vx})
    ensures r.Ok? ==> forall i :: 0 <= i < 8 ==>
      Bit(r.value.registers[vx], i) == (Bit(c.registers[vx], i) != Bit(nn, i))
  {
    BitwiseAssign(c, vx, Xor, nn)
  }

  /** The value 8XY4 writes to VF: 1 when VX + VY, on the values before the
      instruction, does not fit in a byte. */
  function CarryOf(c: Chip8, vx: nat, vy: nat): u8
    requires vx < |c.registers| && vy < |c.registers|
  {
    if c.registers[vx] as int + c.registers[vy] >= 0x100 then 1 else 0
  }

  /** 8XY4: add VY to VX with carry into VF. The flag is written first and the
      sum is then read from the updated file, so when `vy` is 0xF the addend is
      the new flag, and when `vx` is 0xF the sum overwrites the flag. Writing
      VF panics unless the register file has at least sixteen cells. */
  function Op8XY4(c: Chip8, vx: nat, vy: nat): (r: Result<Chip8>)
    ensures r.Ok? <==> vx < |c.registers| && vy < |c.registers| && FlagRegister < |c.registers|
    ensures vx >= |c.registers| ==> r == Panicked(IndexOutOfBounds(vx, |c.registers|))
    ensures vx < |c.registers| <= vy ==> r == Panicked(IndexOutOfBounds(vy, |c.registers|))
    ensures vx < |c.registers| && vy < |c.registers| <= FlagRegister ==>
      r == Panicked(IndexOutOfBounds(FlagRegister, |c.registers|))
    ensures r.Ok? ==> OnlyRegistersChanged(c, r.value, {vx, FlagRegister})
    ensures r.Ok? && vx != FlagRegister ==> r.value.registers[FlagRegister] == CarryOf(c, vx, vy)
    ensures r.Ok? ==>
      var augend := if vx == FlagRegister then CarryOf(c, vx, vy) else c.registers[vx];
      var addend := if vy == FlagRegister then CarryOf(c, vx, vy) else c.registers[vy];
      r.value.registers[vx] == (augend as int + addend) % 0x100
  {
    if vx >= |c.registers| then Panicked(IndexOutOfBounds(vx, |c.registers|))
    else if vy >= |c.registers| then Panicked(IndexOutOfBounds(vy, |c.registers|))
    else if FlagRegister >= |c.registers| then Panicked(IndexOutOfBounds(FlagRegister, |c.registers|))
    else
      var flagged := c.registers[FlagRegister := CarryOf(c, vx, vy)];
      Ok(c.(registers := flagged[vx := WrappingAdd8(flagged[vx], flagged[vy])]))
  }
}
