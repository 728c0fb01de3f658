/** The optional value used across the model: a JS `null` / `undefined`
    (a missing note, no chosen note yet, a NaN from `Number(...)`) is `None`. */
module Options {

  datatype Option<T> = None | Some(value: T)
}
