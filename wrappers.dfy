/** Option and Result, and the error a Python dictionary subscription raises. */
module Wrappers {

  datatype Option<T> = None | Some(value: T) {

    /** The value, or `default` when there is none (Python's `dict.get(key, default)`). */
    function GetOr(default: T): T {
      match this
      case Some(v) => v
      case None => default
    }
  }

  datatype Result<T, E> = Ok(value: T) | Err(error: E)

  /** `KeyError` raised by `table[key]`: the table's name and the missing key. */
  datatype KeyError = KeyError(table: string, key: string)

  /** `table[key]` on a string-keyed dictionary. */
  function Get<V>(m: map<string, V>, key: string, table: string): Result<V, KeyError> {
    if key in m then Ok(m[key]) else Err(KeyError(table, key))
  }
}
