/** The optional value of the source's `T | undefined` fields and of `find`. */
module Options {

  datatype Option<+T> = None | Some(value: T) {

    /** `x ?? default`, and `x || default` where the value is not falsy. */
    function GetOr(default: T): T {
      if Some? then value else default
    }
  }
}
