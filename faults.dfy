/** Fatal conditions of the machines. In the source each one is a panic that
    aborts the process; here each is a value returned to the caller. */
module Faults {
  import opened Bytes

  /** Why a stream operation failed. */
  datatype IoError =
    | EndOfInput   // the input source had no byte left
    | WriteFailed  // the output sink refused the byte

  datatype Fault =
    | Decode(opcode: Byte, at: nat)  // an opcode byte outside the instruction set, at offset `at`
    | Bounds(addr: nat)              // an access at or beyond the end of memory
    | Io(kind: IoError)

  datatype Result<+T> = Ok(value: T) | Err(fault: Fault)
  {
    predicate IsFailure() { Err? }

    function PropagateFailure<U>(): Result<U>
      requires Err?
    {
      Err(fault)
    }

    function Extract(): T
      requires Ok?
    {
      value
    }
  }

  /** How a bounded run of a machine ended. */
  datatype Outcome =
    | Halted              // a `Hlt` cleared the running flag
    | Faulted(fault: Fault)
    | OutOfFuel           // still running when the step budget was spent
}
