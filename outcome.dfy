/** Result wrappers shared by the multilist model. */
module Outcomes {

  /** Rust's `Option`. */
  datatype Option<+T> = None | Some(value: T)

  /** How a call of the container ends.
      - `Ok(value)`: it returns normally.
      - `Panic`: one of the source's `assert!` checks fails and the call aborts.
      - `Undefined`: the call would read or write a freed (or never allocated) element,
        which is undefined behaviour in the source. */
  datatype Outcome<+T> = Ok(value: T) | Panic | Undefined {

    /** The same outcome without its value. */
    function Void(): (r: Outcome<()>)
      ensures r.Ok? == Ok? && r.Panic? == Panic? && r.Undefined? == Undefined?
    {
      match this
      case Ok(_) => Ok(())
      case Panic => Panic
      case Undefined => Undefined
    }
  }
}
