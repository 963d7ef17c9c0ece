/** Fixed-width unsigned machine words as they appear in the emulator state
    (`u8`, `u16`, `u32`), Rust's release-build wrapping `+=`, and the bitwise
    operators `|`, `&` and `^` defined digit by digit on unbounded integers. */
module Words {

  type u8 = x: int | 0 <= x < 0x100
  type u16 = x: int | 0 <= x < 0x1_0000
  type u32 = x: int | 0 <= x < 0x1_0000_0000

  function Pow2(n: nat): (r: nat)
    ensures r >= 1
  {
    if n == 0 then 1 else 2 * Pow2(n - 1)
  }

  /** `a += b` on a `u8`. A debug build panics when the sum exceeds 255; a
      release build wraps modulo 256, which is what is modelled here. */
  function WrappingAdd8(a: u8, b: u8): u8 {
    (a + b) % 0x100
  }

  /** `a += b` on a `u16`, wrapping modulo 65536 as a release build does. */
  function WrappingAdd16(a: u16, b: u16): u16 {
    (a + b) % 0x1_0000
  }

  datatype BitwiseOp = Or | And | Xor

  function Combine(op: BitwiseOp, x: bool, y: bool): bool {
    match op
    case Or => x || y
    case And => x && y
    case Xor => x != y
  }

  /** Bit `i` of `x`, counting from the least significant bit. */
  function Bit(x: nat, i: nat): bool {
    if i == 0 then x % 2 == 1 else Bit(x / 2, i - 1)
  }

  /** The low `width` bits of `a op b`, built from the least significant bit up. */
  function Bitwise(op: BitwiseOp, a: nat, b: nat, width: nat): (r: nat)
    ensures r < Pow2(width)
  {
    if width == 0 then 0
    else 2 * Bitwise(op, a / 2, b / 2, width - 1) + (if Combine(op, a % 2 == 1, b % 2 == 1) then 1 else 0)
  }

  /** Every bit of `a op b` below `width` is `op` applied to the same bit of the operands. */
  lemma {:induction false} BitOfBitwise(op: BitwiseOp, a: nat, b: nat, width: nat, i: nat)
    requires i < width
    ensures Bit(Bitwise(op, a, b, width), i) == Combine(op, Bit(a, i), Bit(b, i))
  {
    var rest := Bitwise(op, a / 2, b / 2, width - 1);
    var low := if Combine(op, a % 2 == 1, b % 2 == 1) then 1 else 0;
    assert Bitwise(op, a, b, width) == 2 * rest + low;
    assert (2 * rest + low) / 2 == rest && (2 * rest + low) % 2 == low;
    if i > 0 {
      BitOfBitwise(op, a / 2, b / 2, width - 1, i - 1);
    }
  }

  /** `|` and `&` with the same right operand a second time change nothing. */
  lemma {:induction false} OrAndIdempotent(op: BitwiseOp, a: nat, n: nat, width: nat)
    requires op != Xor
    ensures Bitwise(op, Bitwise(op, a, n, width), n, width) == Bitwise(op, a, n, width)
  {
    if width > 0 {
      var rest := Bitwise(op, a / 2, n / 2, width - 1);
      var low := if Combine(op, a % 2 == 1, n % 2 == 1) then 1 else 0;
      assert (2 * rest + low) / 2 == rest && (2 * rest + low) % 2 == low;
      OrAndIdempotent(op, a / 2, n / 2, width - 1);
    }
  }

  /** `^` with the same right operand a second time restores the low `width` bits. */
  lemma {:induction false} XorInvolution(a: nat, n: nat, width: nat)
    requires a < Pow2(width)
    ensures Bitwise(Xor, Bitwise(Xor, a, n, width), n, width) == a
  {
    if width > 0 {
      var rest := Bitwise(Xor, a / 2, n / 2, width - 1);
      var low := if Combine(Xor, a % 2 == 1, n % 2 == 1) then 1 else 0;
      assert (2 * rest + low) / 2 == rest && (2 * rest + low) % 2 == low;
      XorInvolution(a / 2, n / 2, width - 1);
    }
  }

  /** A value below `2^width` is fixed by its low `width` bits, so a contract
      that gives every bit of a byte gives the byte. */
  lemma {:induction false} BitsDetermineValue(a: nat, b: nat, width: nat)
    requires a < Pow2(width) && b < Pow2(width)
    requires forall i :: 0 <= i < width ==> Bit(a, i) == Bit(b, i)
    ensures a == b
  {
    if width > 0 {
      assert Bit(a, 0) == Bit(b, 0);
      forall i | 0 <= i < width - 1
        ensures Bit(a / 2, i) == Bit(b / 2, i)
      {
        assert Bit(a, i + 1) == Bit(b, i + 1);
      }
      BitsDetermineValue(a / 2, b / 2, width - 1);
    }
  }
}
