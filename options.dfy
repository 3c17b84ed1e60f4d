/** The optional value used for a frame flag that may be absent (Python's `None`)
    and for a frame in which the pose detector found no person. */
module Options {

  datatype Option<+T> = None | Some(value: T)

}
