/** Failure-carrying results shared by the modules below. */
module Common {
  datatype Option<+T> = None | Some(value: T)
  {
    function GetOr(default: T): T { if Some? then value else default }
  }

  datatype Result<+T> = Ok(value: T) | Err
}
