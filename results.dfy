/** The panics of the Rust engine, as values.

    Every panic the engine can reach is a `Fault`; an operation that can panic
    returns a `Result`. After a panic the Rust process is gone, so a `Fault`
    carries no machine state. */
module Results {
  import opened Bytes

  datatype Option<T> = None | Some(value: T)

  datatype Fault =
      /** an index or slice end past the 0xFFFF-byte memory array */
    | OutOfBounds(index: int)
      /** a non-wrapping `u16` addition that overflows (a debug-build panic) */
    | Overflow
      /** `opcodes.get(&code).expect(..)` found no table entry */
    | UnknownOpcode(code: uint8)
      /** `todo!()`: the opcode has a table entry but no dispatch arm */
    | NotImplemented(code: uint8)
      /** `NoneAddressing` where an operand address is needed */
    | NoAddress

  datatype Result<T> = Ok(value: T) | Err(fault: Fault) {
    predicate IsFailure() {
      Err?
    }

    function PropagateFailure<U>(): Result<U>
      requires Err?
    {
      Err(fault)
    }

    function Extract(): T
      requires Ok?
    {
      value
    }
  }
}
