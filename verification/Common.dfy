/** What several of the modules use. */
module Common {

  datatype Option<+T> = None | Some(value: T)

  lemma SetTwice<V>(m: map<nat, V>, k: nat, v: V, w: V)
    ensures m[k := v][k := w] == m[k := w]
  {
  }
}
