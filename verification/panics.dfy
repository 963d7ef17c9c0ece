/** The emulator reports failure only by panicking: indexing a fixed-size array
    out of bounds aborts the call. A handler's outcome is therefore either the
    new state or the panic that stopped it. */
module Panics {

  /** Rust's "index out of bounds: the len is `len` but the index is `index`". */
  datatype Panic = IndexOutOfBounds(index: nat, len: nat)

  datatype Result<+T> = Ok(value: T) | Panicked(panic: Panic) {

    predicate IsFailure() {
      Panicked?
    }

    function PropagateFailure<U>(): Result<U>
      requires Panicked?
    {
      Panicked(panic)
    }

    function Extract(): T
      requires Ok?
    {
      value
    }
  }
}
