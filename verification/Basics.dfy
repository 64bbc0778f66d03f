/** What the other modules share. */
module Basics {
  datatype Option<+T> = None | Some(value: T)

  /** A file's path, compared and passed on but never taken apart. */
  type Path(==, !new)

  type Byte = b: int | 0 <= b < 256

  type Bytes = seq<Byte>

  const NEWLINE: Byte := 10
}
