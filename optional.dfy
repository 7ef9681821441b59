/** A value that may be missing: a JavaScript `null`, a Python `None`, or a lookup that found nothing. */
module Optional {

  datatype Option<+T> = None | Some(value: T)
}
