/** Option and Result, with the Python exceptions the scraper can raise as error values. */
module Wrappers {

  datatype Option<+T> = None | Some(value: T)

  /** The exceptions the modelled code can raise, plus one that stands for the end of
      a finite script of server responses (the model's replacement for the network). */
  datatype Error =
    | KeyError(key: string)   // dict[key] with a missing string key
    | IntKeyError(index: int) // dict[i] with an integer key (JSON object keys are strings)
    | IndexError              // list[i] out of range
    | TypeError               // an operation applied to a value of the wrong type
    | AttributeError          // .get on something that is not a dict
    | ValueError              // range(...) with step 0
    | ScriptExhausted         // the server script has no response left

  datatype Result<+T> = Ok(value: T) | Err(error: Error) {
    predicate IsFailure() { Err? }

    function PropagateFailure<U>(): Result<U>
      requires Err?
    {
      Err(error)
    }

    function Extract(): T
      requires Ok?
    {
      value
    }
  }
}
