/** Facts about sequences and maps that several parts of the program share. */
module Collections {
  ghost predicate NoDup<T>(xs: seq<T>) {
    forall i, j :: 0 <= i < j < |xs| ==> xs[i] != xs[j]
  }

  ghost function Values<K, V>(m: map<K, V>): set<V> {
    set k | k in m :: m[k]
  }

  /** Whether a word stands at position i of a text. */
  ghost predicate OccursAt(text: string, word: string, i: int) {
    0 <= i && i + |word| <= |text| && text[i..i + |word|] == word
  }
}
