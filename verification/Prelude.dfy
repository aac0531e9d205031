/** Small shared vocabulary: optional values and facts about sequences. */
module Prelude {
  datatype Option<+T> = None | Some(value: T)

  function OrElse<T>(o: Option<T>, default: T): T {
    if o.Some? then o.value else default
  }

  function Elements<T>(s: seq<T>): set<T> {
    set x | x in s
  }

  ghost predicate NoDup<T>(s: seq<T>) {
    forall i, j :: 0 <= i < j < |s| ==> s[i] != s[j]
  }

  /** What a partial map holds at a key. */
  function At<K, V>(m: map<K, V>, k: K): Option<V> {
    if k in m then Some(m[k]) else None
  }

  lemma SameByAt<K, V>(m: map<K, V>, n: map<K, V>)
    requires forall k :: At(m, k) == At(n, k)
    ensures m == n
  {
    forall k ensures k in m <==> k in n {
      assert At(m, k) == At(n, k);
    }
    forall k | k in m ensures m[k] == n[k] {
      assert At(m, k) == At(n, k);
    }
  }
}
