/** Optional values, standing for JavaScript's `undefined` versus a present value. */
module Optional {

  datatype Option<+T> = None | Some(value: T)

  /** JavaScript truthiness of an optional string: `undefined` and `''` are falsy. */
  predicate Given(o: Option<string>) {
    o.Some? && o.value != ""
  }
}
