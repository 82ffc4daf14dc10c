/** Outcomes of the modelled Python code: a value, or the exception it raises. */
module Results {

  /** The Python exceptions the modelled code can raise. */
  datatype Error =
    | IndexError   // a list, array or string index out of range
    | KeyError     // a dictionary lookup of a missing key
    | ValueError   // an unsupported file format, or random.randint over an empty range

  datatype Result<T> = Ok(value: T) | Err(error: Error)

  datatype Option<T> = None | Some(value: T)
}
