/** Option and Result values: the model's stand-ins for Python's None and for
    the exceptions the modelled code raises or propagates. */
module Wrappers {

  datatype Option<+T> = None | Some(value: T)

  /** The errors the modelled Python code raises or propagates. */
  datatype Error =
    | ZeroDivision          // Python ZeroDivisionError
    | ValueError            // numpy shape/broadcast errors, int() parse errors, max([])
    | KeyError              // a missing dict key
    | AttributeError        // calling .keys() on a value that is not a dict
    | IndexError            // an index past the end of a list
    | CorruptChunk          // nbt.CorruptChunkError
    | ChunkDoesntExist      // world.ChunkDoesntExist
    | UnboundLocal          // UnboundLocalError (a loop variable never bound)

  datatype Result<+T> = Ok(value: T) | Err(error: Error)
  {
    predicate IsFailure()
    {
      Err?
    }

    function PropagateFailure<U>(): Result<U>
      requires Err?
    {
      Err(error)
    }

    function Extract(): T
      requires Ok?
    {
      value
    }
  }
}
