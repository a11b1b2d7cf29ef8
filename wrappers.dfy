/** Optional values: JavaScript's `undefined`/`null` on one side, a present value on the other. */
module Wrappers {

  datatype Option<+T> = None | Some(value: T) {

    /** JavaScript's nullish coalescing `x ?? fallback`. */
    function Coalesce(fallback: T): T {
      if Some? then value else fallback
    }
  }
}
