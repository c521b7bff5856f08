/** Facts about map union and update that the loops over class lists rely on. */
module Maps {

  lemma MergeUpdate<K, V>(m0: map<K, V>, m: map<K, V>, k: K, v: V)
    ensures (m0 + m)[k := v] == m0 + m[k := v]
  {
  }

  lemma MergeEmpty<K, V>(m: map<K, V>)
    ensures map[] + m == m
  {
  }

  lemma UpdateSame<K, V>(m: map<K, V>, k: K)
    requires k in m
    ensures m[k := m[k]] == m
  {
  }

  /** A union whose right operand has the keys of the one before it overrides that one entirely. */
  lemma OverrideAll<K, V>(m0: map<K, V>, a: map<K, V>, b: map<K, V>)
    requires a.Keys == b.Keys
    ensures m0 + a + b == m0 + b
  {
  }

  lemma UpdateTwice<T>(s: seq<T>, i: nat, a: T, b: T)
    requires i < |s|
    ensures s[i := a][i := b] == s[i := b]
  {
  }
}
