/** Small views of the built-in collections. */
module Collections {

  /** The set kept under a key, empty if there is none. */
  function At<K, V>(m: map<K, set<V>>, k: K): set<V> {
    if k in m then m[k] else {}
  }

  function SetOf<T>(xs: seq<T>): set<T> {
    set x | x in xs
  }

  /** The first k elements of a concatenation. */
  lemma TakeConcat<T>(a: seq<T>, b: seq<T>, k: nat)
    requires k <= |a + b|
    ensures (a + b)[..k] == if k <= |a| then a[..k] else a + b[..k - |a|]
    ensures k > 0 ==> (a + b)[k - 1] == if k <= |a| then a[k - 1] else b[k - 1 - |a|]
  {
  }

  lemma TakePrefix<T>(a: seq<T>, b: seq<T>, k: nat)
    requires a <= b && k <= |a|
    ensures b[..k] == a[..k]
  {
  }
}
