/** Values that may be absent, and the bounds of stored integers, shared by the other modules. */
module Wrappers {
  datatype Option<+T> = None | Some(value: T)

  function Lookup<K, V>(m: map<K, V>, k: K): Option<V> { if k in m then Some(m[k]) else None }

  /** The largest integer a table column holds. */
  const MAX_INT: int := 0x7FFF_FFFF_FFFF_FFFF

  /** The first number no revision may take. */
  const REVISION_LIMIT: int := MAX_INT + 1
}
