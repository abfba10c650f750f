/** Values shared by every module of the model: an optional value, a result
    that is either a value or the Python exception the source raises, and the
    exceptions themselves. */
module Base {

  datatype Option<+T> = None | Some(value: T)

  /** The exceptions the modelled code raises, named after Python's. */
  datatype Error =
    /** `KeyError` from a lookup of a job id: `get_crawler` found no crawler
        with that id, or `set.remove` was asked for an id that is not paused. */
    | JobKeyError(id: int)
    /** `KeyError` from a keyword-argument dictionary missing `name`. */
    | KwargKeyError(name: string)
    /** `KeyError` from the spider-signal table: the signal is not one of its keys. */
    | SignalKeyError
    /** `AttributeError`: an attribute `attr` was read from an object without it
        (`None`, or a sender that is not a stats collector). */
    | AttributeError(attr: string)

  datatype Result<+T> = Ok(value: T) | Err(error: Error)
}
