/** Shared value types. */
module Prelude {

  datatype Option<+T> = None | Some(value: T) {
    function GetOr(default: T): T {
      match this
      case Some(v) => v
      case None => default
    }
  }

  function Max(a: int, b: int): int {
    if a < b then b else a
  }

  // Instants are microseconds since the Unix epoch, UTC.
  const SECOND := 1_000_000
  const HOUR := 3_600_000_000
  const DAY := 86_400_000_000
  const GIB := 1_073_741_824
}
