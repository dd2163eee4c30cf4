/** Facts about sequences of anything, and sorting them. */
module Sequences {
  lemma InBoth<T>(a: seq<T>, b: seq<T>, x: T)
    ensures x in a + b <==> x in a || x in b
  {
  }

  lemma Associative<T>(a: seq<T>, b: seq<T>, c: seq<T>)
    ensures a + (b + c) == (a + b) + c
  {
  }

  lemma InsertedSame<T>(front: seq<T>, x: T, back: seq<T>)
    ensures multiset(front + [x] + back) == multiset(front + back) + multiset{x}
  {
  }

  lemma CountFirst<T>(x: T, s: seq<T>, y: T)
    ensures multiset([x] + s)[y] == multiset(s)[y] + if x == y then 1 else 0
  {
  }

  // ------------------------------------------------------------------ sorting

  ghost predicate TotalOrder<T(!new)>(leq: (T, T) -> bool) {
    && (forall x, y :: leq(x, y) || leq(y, x))
    && (forall x, y, z :: leq(x, y) && leq(y, z) ==> leq(x, z))
  }

  ghost predicate SortedBy<T>(s: seq<T>, leq: (T, T) -> bool) {
    forall i, j :: 0 <= i < j < |s| ==> leq(s[i], s[j])
  }

  lemma InsertedSorted<T(!new)>(front: seq<T>, x: T, back: seq<T>, leq: (T, T) -> bool)
    requires TotalOrder(leq) && SortedBy(front + back, leq)
    requires front != [] ==> leq(front[|front| - 1], x)
    requires back != [] ==> leq(x, back[0])
    ensures SortedBy(front + [x] + back, leq)
  {
    var s, r := front + back, front + [x] + back;
    forall i, j | 0 <= i < j < |r| ensures leq(r[i], r[j]) {
      if i == |front| {
        assert r[j] == s[j - 1] && back[0] == s[|front|];
      } else if j == |front| {
        assert r[i] == s[i] && front[|front| - 1] == s[|front| - 1];
      } else {
        assert r[i] == s[if i < |front| then i else i - 1] && r[j] == s[if j < |front| then j else j - 1];
      }
    }
  }

  /** Places `x` into a sorted list. */
  method Insert<T(!new)>(s: seq<T>, x: T, leq: (T, T) -> bool) returns (r: seq<T>)
    requires TotalOrder(leq) && SortedBy(s, leq)
    ensures SortedBy(r, leq) && multiset(r) == multiset(s) + multiset{x}
  {
    var i := |s|;
    while i > 0 && !leq(s[i - 1], x)
      invariant 0 <= i <= |s|
      invariant i < |s| ==> leq(x, s[i])
    {
      i := i - 1;
    }
    var front, back := s[..i], s[i..];
    assert s == front + back;
    InsertedSorted(front, x, back, leq);
    InsertedSame(front, x, back);
    r := front + [x] + back;
  }

  method InsertionSort<T(!new)>(s: seq<T>, leq: (T, T) -> bool) returns (r: seq<T>)
    requires TotalOrder(leq)
    ensures SortedBy(r, leq) && multiset(r) == multiset(s)
  {
    r := [];
    for n := 0 to |s|
      invariant SortedBy(r, leq) && multiset(r) == multiset(s[..n])
    {
      r := Insert(r, s[n], leq);
      assert s[..n + 1] == s[..n] + [s[n]];
    }
    assert s[..|s|] == s;
  }
}
