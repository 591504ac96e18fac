/** An optional value: what a lookup that may find nothing returns (PHP's `T|null`). */
module Optional {

  datatype Option<+T> = None | Some(value: T)
}
