/** Value wrappers shared by the audio pipeline model. */
module Results {

  /** An optional value: a device index that may be unset, a frame that may not have arrived yet. */
  datatype Option<T> = None | Some(value: T)

  /** The outcome of an operation that either completes or raises `error`. */
  datatype Status<E> = Done | Raised(error: E)
}
