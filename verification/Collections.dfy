/** Facts about sequences, sets and maps that several modules need. */
module Collections {
  import opened Options

  function Find<K, V>(m: map<K, V>, k: K): Option<V> {
    if k in m then Some(m[k]) else None
  }

  ghost predicate Distinct<T>(s: seq<T>) {
    forall i, j :: 0 <= i < j < |s| ==> s[i] != s[j]
  }

  function Join(parts: seq<string>, separator: char): string {
    if parts == [] then ""
    else if |parts| == 1 then parts[0]
    else parts[0] + ([separator] + Join(parts[1..], separator))
  }

  lemma SubsetSize<T>(a: set<T>, b: set<T>)
    requires a <= b
    ensures |a| <= |b|
  {
    assert b == a + (b - a);
  }

  lemma DropAt<T>(s: seq<T>, i: nat, x: T)
    requires i < |s| && x in s && x != s[i]
    ensures x in s[..i] + s[i + 1..]
  {
    var j :| 0 <= j < |s| && s[j] == x;
    if j < i {
      assert (s[..i] + s[i + 1..])[j] == x;
    } else {
      assert (s[..i] + s[i + 1..])[j - 1] == x;
    }
  }
}
