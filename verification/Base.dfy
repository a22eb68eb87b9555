/** Values shared by the modules: an optional value, and maxima. */
module Base {

  datatype Option<+T> = None | Some(value: T)

  function Max(a: int, b: int): (m: int) {
    if a >= b then a else b
  }
}
