/** The optional values of the model: an absent header, a cache miss, a missing field. */
module Options {

  datatype Option<+T> = None | Some(value: T)
}
