/** The "maybe a value" type shared by the calculator (parseInt's NaN) and the ledger (Array.find's undefined). */
module Optional {
  datatype Option<T> = None | Some(value: T)
}
