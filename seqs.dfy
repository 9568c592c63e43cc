/** Sequence helpers shared by the modules: duplicate removal, filtering, counting. */
module Seqs {

  predicate NoDups<T(==)>(s: seq<T>) {
    forall i, j :: 0 <= i < j < |s| ==> s[i] != s[j]
  }

  /** The index of the first occurrence of `x` in `s`. */
  function FirstIndex<T(==)>(s: seq<T>, x: T): (k: nat)
    requires x in s
    ensures k < |s| && s[k] == x && x !in s[..k]
  {
    if s[0] == x then 0
    else
      var k := 1 + FirstIndex(s[1..], x);
      assert s[..k] == [s[0]] + s[1..][..k - 1];
      k
  }

  /** Two indices that both satisfy FirstIndex's postcondition are the same index. */
  lemma FirstIndexUnique<T>(s: seq<T>, x: T, k: nat)
    requires k < |s| && s[k] == x && x !in s[..k]
    ensures FirstIndex(s, x) == k
  {
  }

  /**
   * The distinct elements of `s`, each at its first occurrence. This is the
   * key order of a Python dict filled from `s`; the model also uses it for
   * `list(set(s))`, whose order Python leaves unspecified.
   */
  function Dedup<T(==, !new)>(s: seq<T>): (d: seq<T>)
    ensures NoDups(d)
    ensures forall x :: x in d <==> x in s
    ensures |d| <= |s|
  {
    if |s| == 0 then []
    else
      var init := s[..|s| - 1];
      assert s == init + [s[|s| - 1]];
      var d := Dedup(init);
      if s[|s| - 1] in d then d else d + [s[|s| - 1]]
  }

  lemma DedupSnoc<T(!new)>(s: seq<T>, x: T)
    ensures Dedup(s + [x]) == if x in s then Dedup(s) else Dedup(s) + [x]
  {
    assert (s + [x])[..|s|] == s;
  }

  /** Dedup keeps elements in the order of their first occurrence in `s`. */
  lemma {:induction false} DedupFirstSeenOrder<T(!new)>(s: seq<T>, i: nat, j: nat)
    requires i < j < |Dedup(s)|
    ensures FirstIndex(s, Dedup(s)[i]) < FirstIndex(s, Dedup(s)[j])
  {
    var n := |s|;
    var init := s[..n - 1];
    assert s == init + [s[n - 1]];
    var d := Dedup(init);
    var x, y := Dedup(s)[i], Dedup(s)[j];
    if j < |d| {
      DedupFirstSeenOrder(init, i, j);
      assert x == d[i] && y == d[j];
      var fx, fy := FirstIndex(init, x), FirstIndex(init, y);
      assert s[..fx] == init[..fx] && s[..fy] == init[..fy];
      FirstIndexUnique(s, x, fx);
      FirstIndexUnique(s, y, fy);
    } else {
      assert y == s[n - 1] && y !in init;
      assert x == d[i] && x in init;
      var fx := FirstIndex(init, x);
      assert s[..fx] == init[..fx];
      FirstIndexUnique(s, x, fx);
      assert s[..n - 1] == init;
      FirstIndexUnique(s, y, n - 1);
    }
  }

  /** The number of occurrences of `x` in `s`. */
  function Count<T(==)>(s: seq<T>, x: T): (n: nat)
    ensures n <= |s|
    ensures n == 0 <==> x !in s
  {
    if |s| == 0 then 0
    else
      var init := s[..|s| - 1];
      assert s == init + [s[|s| - 1]];
      Count(init, x) + if s[|s| - 1] == x then 1 else 0
  }
}
