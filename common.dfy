/** Optional values, standing for the source's `undefined`-able fields and parameters. */
module Common {

  datatype Option<T> = None | Some(value: T) {

    /** The value, or `default` when there is none. */
    function GetOr(default: T): T {
      if Some? then value else default
    }
  }
}
