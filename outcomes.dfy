/** Optional values and results. A JavaScript `Error` carries only its
    message, so every failure here carries a string. */
module Outcomes {

  datatype Option<+T> = None | Some(value: T)

  datatype Result<+T> = Ok(value: T) | Err(message: string)
}
