/** The optional value used wherever the widget code holds a possibly-null
    pointer (the active handle, a hit handle, a lazily created resizer). */
module Options {

  datatype Option<+T> = None | Some(value: T)

}
