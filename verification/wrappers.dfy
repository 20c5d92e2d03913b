/** Option and Result types used for the error paths of the model. */
module Wrappers {
  datatype Option<T> = None | Some(value: T)

  /** The error kinds the modelled code can raise or return. */
  datatype Error =
    | IndexError          // Python: a list index past the end
    | ValueError          // Python: int() on text that is not a number
    | InvalidRomFile      // Go: cartridge.ErrInvalidRomFile
    | UnimplementedMapper // Go: cartridge.ErrUnimplementedMapper
    | InvalidInstruction  // Go: cpu.ErrInvalidInstruction
    | SliceBounds         // Go: a slice expression out of range (a panic)
    | EndOfFile           // Go: io.EOF from a read at the end of a file
    | NegativeShift       // Go: a shift by a negative amount (a panic)

  datatype Result<T> = Ok(value: T) | Err(error: Error) {
    predicate IsFailure() { Err? }
    function PropagateFailure<U>(): Result<U>
      requires Err?
    {
      Err(error)
    }
    function Extract(): T
      requires Ok?
    {
      value
    }
  }
}
