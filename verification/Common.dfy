/** What several modules share. */
module Common {

  datatype Option<T> = None | Some(value: T)

  function Elements<T(==)>(s: seq<T>): set<T> {
    set x | x in s
  }

  ghost predicate Distinct<T>(s: seq<T>) {
    forall i, j :: 0 <= i < j < |s| ==> s[i] != s[j]
  }

  lemma MultisetCancels<T>(a: multiset<T>, b: multiset<T>, c: multiset<T>)
    requires a + c == b + c
    ensures a == b
  {
    assert a == (a + c) - c && b == (b + c) - c;
  }

  /** Two sequences that begin alike have the same elements exactly if their ends have. */
  lemma SameFrontSameEnd<T>(a: seq<T>, b: seq<T>, k: nat)
    requires k <= |a| == |b| && a[..k] == b[..k]
    ensures multiset(a) == multiset(b) <==> multiset(a[k..]) == multiset(b[k..])
  {
    var front, x, y := a[..k], a[k..], b[k..];
    assert a == front + x && b == front + y;
    assert multiset(a) == multiset(x) + multiset(front) && multiset(b) == multiset(y) + multiset(front);
    if multiset(a) == multiset(b) {
      MultisetCancels(multiset(x), multiset(y), multiset(front));
    }
  }
}
