/** The two result types used across the model. */
module Wrappers {

  datatype Option<+T> = None | Some(value: T)
  {
    function GetOr(fallback: T): T
    {
      if Some? then value else fallback
    }
  }

  datatype Result<+T, +E> = Ok(value: T) | Err(error: E)
}
