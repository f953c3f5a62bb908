/** Option and Result, used for the lookups that may miss and the parses that may fail. */
module Common {

  datatype Option<T> = None | Some(value: T)
  {
    /** `d.get(key, default)` once the lookup has been made. */
    function GetOr(default: T): T
    {
      match this
      case Some(v) => v
      case None => default
    }
  }

  datatype Result<T, E> = Ok(value: T) | Err(error: E)
}
