/** Small types shared by the models. */
module Common {

  datatype Option<+T> = None | Some(value: T)

  /** A stored value. Python's `True` equals `1` and `False` equals `0`, so a number covers both. */
  datatype Value = Null | Number(n: int) | Text(s: string) {
    predicate Truthy() {
      match this
      case Null => false
      case Number(n) => n != 0
      case Text(s) => s != ""
    }
  }
}
