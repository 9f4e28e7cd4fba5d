/** Results of reading a prefix of a text. */
module Scanning {
  import opened Unicode

  /** A value read from the front of a text, and what follows it. */
  datatype Read<+T> = Bad | Got(value: T, rest: Text)
}
