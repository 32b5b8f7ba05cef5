/** The present-or-absent values that `std::optional` carries. */
module Optional {

  datatype Option<+T> = None | Some(value: T)
}
