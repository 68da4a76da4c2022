/** Traffic counters: upload and download are always counted side by side. */
module Counters {
  datatype Pair = Pair(up: nat, down: nat)

  const ZERO := Pair(0, 0)

  function Add(a: Pair, b: Pair): Pair { Pair(a.up + b.up, a.down + b.down) }
}
