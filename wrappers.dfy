/** Optional values: a JavaScript property or response that may be `undefined`/`null`. */
module Wrappers {

  datatype Option<+T> = None | Some(value: T) {

    /** Returns the value held in Some, or the given default when None. */
    function GetOr(default: T): (r: T)
    {
      match this
      case Some(v) => v
      case None => default
    }
  }

  /** Looks a key up in a map the way `obj[key]` reads a JSON object property. */
  function Lookup<K, V>(m: map<K, V>, key: K): (r: Option<V>)
  {
    if key in m then Some(m[key]) else None
  }
}
