/** Results shared by all parts. */
module Results {

  datatype Option<T> = None | Some(value: T)

  /** What a call that is repeated until it is finished answers. */
  datatype Success = Pending | Positive | Failed(code: int)
}
