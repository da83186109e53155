/** Option and Result, and the exceptions the object layer lets escape. */
module Results {

  datatype Option<T> = None | Some(value: T)

  /** The errors a caller of the object layer can observe. */
  datatype Error =
    | KeyError(key: string)     // a RedisDict field that is not declared
    | ValueError(text: string)  // int() applied to a string that is not an integer literal
    | TypeError                 // calling the non-callable NotImplemented on a slice read
    | NotImplementedError       // a slice read with a step other than 1 (corrected slice read only)
    | WrongType                 // Redis WRONGTYPE: the key holds the other kind of value
    | NoSuchKey                 // Redis LSET on a missing key
    | OutOfRange                // Redis LSET with an index outside the list

  datatype Result<T> = Ok(value: T) | Err(error: Error)

  /** The outcome of a command whose reply the caller ignores. */
  function Discard<T>(r: Result<T>): Result<()>
  {
    if r.Err? then Err(r.error) else Ok(())
  }
}
