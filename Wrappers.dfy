/** Option and Result, the "undefined" and "thrown error" of the modelled code, and one sequence fact. */
module Wrappers {

  datatype Option<+T> = None | Some(value: T)

  /** A computation that either produced a value or threw an error with a message. */
  datatype Result<+T> = Ok(value: T) | Err(message: string)

  /** Concatenation regrouped; called where the solver would otherwise search for it. */
  lemma AppendAssoc<T>(a: seq<T>, b: seq<T>, c: seq<T>)
    ensures (a + b) + c == a + (b + c)
  {
  }
}
