/** Option and Result values, and the Python exceptions the modelled code can raise. */
module Wrappers {

  datatype Option<+T> = None | Some(value: T)

  /** The exceptions raised by the modelled code. */
  datatype Exception =
    | IndexError          // a list index out of range (an Element built from fewer than two nodes)
    | KeyError(key: int)  // a dictionary lookup of a missing key
    | NameError           // an unrecognised model dimensionality

  datatype Result<+T> = Ok(value: T) | Err(error: Exception)
}
