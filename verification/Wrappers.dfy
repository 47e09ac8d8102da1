/** The optional value and the success-or-error value used throughout the model. */
module Wrappers {

  datatype Option<+T> = None | Some(value: T)

  datatype Result<+T, +E> = Success(value: T) | Failure(error: E)

  /** An identifier: text of which only the identity matters to most of the model. */
  datatype Name = Name(text: string)

  const BLANK := Name("")

  /** The document stored under a key, as a store's Get reports it. */
  function Lookup<K, V>(m: map<K, V>, k: K): Option<V> {
    if k in m then Some(m[k]) else None
  }

  lemma UnionThenUpdate<K, V>(m: map<K, V>, extra: map<K, V>, k: K, v: V)
    ensures (m + extra)[k := v] == m + extra[k := v]
  {
  }

  lemma RemoveThenRemove<K, V>(m: map<K, V>, gone: set<K>, k: K)
    ensures m - gone - {k} == m - (gone + {k})
  {
  }
}
