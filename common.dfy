/** Optional values: JavaScript's `undefined`/`null` next to a present value. */
module Common {

  datatype Option<+T> = None | Some(value: T)

}
