/** The optional value used for JavaScript's `null`/`undefined` (a missing route parameter,
    an object lookup that finds nothing, a state that has not been set yet). */
module Options {

  datatype Option<+T> = None | Some(value: T)
}
