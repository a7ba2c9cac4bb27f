/** A value that may be absent: models TypeScript's `T | null` (and `undefined`). */
module Optional {
  datatype Option<+T> = None | Some(value: T)
}
