/** The shapes shared by the other modules. */
module Wrappers {
  datatype Option<+T> = None | Some(value: T)

  datatype Result<+T, +E> = Ok(value: T) | Err(error: E)

  /** How an API call ends: served (a read may be `back` versions behind), refused before or after taking effect. */
  datatype Fate = Served(back: nat) | Unavailable | LostReply
}
