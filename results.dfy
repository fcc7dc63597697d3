/** Small result wrappers shared by the model. */
module Results {

  /** An optional value; `None` stands for "no usable value". */
  datatype Option<+T> = None | Some(value: T)

  /** The outcome of a Go computation that may panic: either it returns a value
      or the goroutine panics and the request handler never reaches its next statement. */
  datatype Outcome<+T> = Done(value: T) | Panic
}
