/** The Option and Result types shared by all modules. */
module Wrappers {
  datatype Option<+T> = None | Some(value: T)

  function Get<K, V>(m: map<K, V>, k: K): Option<V> {
    if k in m then Some(m[k]) else None
  }

  datatype Result<+T, +E> = Ok(value: T) | Err(error: E)
}
