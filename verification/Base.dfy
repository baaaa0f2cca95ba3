/** Small shared vocabulary: identifiers and optional values. */
module Base {

  /** User, group, entry and device identifiers are opaque texts (UUIDs). */
  type Id = string

  newtype byte = x: int | 0 <= x < 256

  datatype Option<+T> = None | Some(value: T) {
    function Or(fallback: T): T {
      if Some? then value else fallback
    }
  }

  /** Map lookup in the style of Go's missing-key zero value. */
  function Get<K, V>(m: map<K, V>, k: K): Option<V> {
    if k in m then Some(m[k]) else None
  }

  function Max(a: int, b: int): int { if a < b then b else a }

  lemma TakeAll<T>(s: seq<T>, i: int)
    requires i == |s|
    ensures s[..i] == s
  {
  }
}
