/** A value that may be absent: a timer id that may not be pending, a property
    that no tween in a batch sets. */
module Optional {

  datatype Option<+T> = None | Some(value: T)
}
