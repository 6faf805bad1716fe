/** The optional value used where the source either has a value or has none:
    an array slot that JavaScript leaves `undefined`, or a search that finds nothing. */
module Options {

  datatype Option<+T> = None | Some(value: T)

}
