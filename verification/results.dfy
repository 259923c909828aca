/** Failure-carrying wrappers shared by the model. */
module Results {

  /** A value that may be absent. */
  datatype Option<+T> = None | Some(value: T)

  /** The outcome of an operation that can fail with an error of type E. */
  datatype Result<+T, +E> = Ok(value: T) | Err(error: E)
}

/** The fixed-width unsigned integers the program receives from its data sources. */
module MachineInts {

  const TWO_TO_THE_16: nat := 0x1_0000
  const TWO_TO_THE_32: nat := 0x1_0000_0000
  const TWO_TO_THE_64: nat := 0x1_0000_0000_0000_0000

  type U16 = x: nat | x < TWO_TO_THE_16
  type U32 = x: nat | x < TWO_TO_THE_32
  type U64 = x: nat | x < TWO_TO_THE_64
}
