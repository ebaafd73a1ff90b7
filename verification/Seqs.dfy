/** Sequences without repetition. */
module Seqs {

  predicate Distinct<T(==)>(s: seq<T>) {
    s == [] || (s[0] !in s[1..] && Distinct(s[1..]))
  }

  lemma {:induction false} AppendDistinct<T>(s: seq<T>, x: T)
    requires Distinct(s) && x !in s
    ensures Distinct(s + [x])
  {
    if s == [] {
      assert s + [x] == [x];
    } else {
      AppendDistinct(s[1..], x);
      assert (s + [x])[1..] == s[1..] + [x];
    }
  }

  lemma {:induction false} DropDistinct<T>(s: seq<T>, n: nat)
    requires Distinct(s) && n <= |s|
    ensures Distinct(s[n..])
  {
    if n > 0 {
      DropDistinct(s[1..], n - 1);
      assert s[n..] == s[1..][n - 1..];
    }
  }

  /** The same seen from the other end. */
  lemma {:induction false} DistinctFront<T>(s: seq<T>)
    requires s != []
    ensures Distinct(s) <==> Distinct(s[..|s| - 1]) && s[|s| - 1] !in s[..|s| - 1]
  {
    var front, last := s[..|s| - 1], s[|s| - 1];
    assert s == front + [last];
    if front != [] {
      DistinctFront(s[1..]);
      assert s[1..][..|s| - 2] == front[1..] && s[1..] == front[1..] + [last];
      assert front == [s[0]] + front[1..];
    }
  }
}
