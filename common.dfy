/** Shared wrappers: Python's `None`, and the exceptions the core can raise,
    as values a function returns instead of throwing. */
module Common {

  datatype Option<+T> = None | Some(value: T)

  /** The Python exceptions the modelled code lets escape. */
  datatype Failure =
    | IndexError                  // a list subscript or tuple unpacking past the end
    | KeyError(key: string)       // `row[key]` on a dict without that key
    | AttributeError(name: string) // `getattr(obj, name)` or `None.attr`

  datatype Result<+T> = Ok(value: T) | Err(error: Failure) {
    predicate IsFailure() { Err? }

    function PropagateFailure<U>(): Result<U>
      requires Err?
    {
      Err(error)
    }

    function Extract(): T
      requires Ok?
    {
      value
    }
  }

  /** `d.get(k)`: the value under `k`, or `None` when the key is absent. */
  function Get<K, V>(m: map<K, V>, k: K): (r: Option<V>)
    ensures r.Some? <==> k in m
    ensures r.Some? ==> r.value == m[k]
  {
    if k in m then Some(m[k]) else None
  }

  /** Concatenation of text is associative. */
  lemma ConcatAssoc(x: string, y: string, z: string)
    ensures x + (y + z) == (x + y) + z
  {
  }
}
