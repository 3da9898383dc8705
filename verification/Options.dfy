/** A value that may be absent: the nullable columns and results of the modelled code. */
module Options {
  datatype Option<+T> = None | Some(value: T) {
    function GetOr(other: T): T {
      if Some? then value else other
    }
  }
}
