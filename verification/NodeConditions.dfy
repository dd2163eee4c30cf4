/** Whether a node's conditions changed (pkg/kubelet/kubelet_node_status.go, `nodeConditionsHaveChanged`). */
module NodeConditions {
  import opened Sequences
  import opened Strings

  /** v1.NodeCondition; times are instants, and 0 is the zero time. */
  datatype Condition = Condition(kind: string, status: string, heartbeat: int, transition: int, reason: string,
                                 message: string)

  // ------------------------------------------------------------------ lists up to heartbeat

  function Plain(c: Condition): Condition {
    c.(heartbeat := 0)
  }

  function Plains(s: seq<Condition>): (r: seq<Condition>)
    ensures |r| == |s| && forall i :: 0 <= i < |s| ==> r[i] == Plain(s[i])
  {
    seq(|s|, i requires 0 <= i < |s| => Plain(s[i]))
  }

  /** The conditions of one type, in order. */
  function OfKind(s: seq<Condition>, kind: string): (r: seq<Condition>)
    ensures forall i :: 0 <= i < |r| ==> r[i].kind == kind
  {
    if s == [] then [] else (if s[0].kind == kind then [s[0]] else []) + OfKind(s[1..], kind)
  }

  /** For each type, the same conditions in the same order, up to heartbeat. */
  ghost predicate SameByKind(a: seq<Condition>, b: seq<Condition>) {
    forall kind :: Plains(OfKind(a, kind)) == Plains(OfKind(b, kind))
  }

  ghost predicate DistinctKinds(s: seq<Condition>) {
    forall i, j :: 0 <= i < j < |s| ==> s[i].kind != s[j].kind
  }

  /** They differ in nothing but when they were last heard of. */
  predicate SameButHeartbeat(c: Condition, d: Condition) {
    && c.kind == d.kind && c.status == d.status && c.transition == d.transition
    && c.reason == d.reason && c.message == d.message
  }

  lemma PlainForgets(c: Condition, d: Condition)
    ensures Plain(c) == Plain(d) <==> SameButHeartbeat(c, d)
  {
    if SameButHeartbeat(c, d) { assert c == d.(heartbeat := c.heartbeat); }
  }

  /** Each condition of the one list has its like in the other. */
  ghost predicate Matched(a: seq<Condition>, b: seq<Condition>) {
    forall i :: 0 <= i < |a| ==> HasLike(a[i], b)
  }

  ghost predicate HasLike(c: Condition, s: seq<Condition>) {
    exists j :: 0 <= j < |s| && SameButHeartbeat(c, s[j])
  }

  /** Type by type the lists have as many conditions, and these differ in nothing but the heartbeat. */
  ghost predicate LikeByKind(a: seq<Condition>, b: seq<Condition>) {
    forall kind ::
      && |OfKind(a, kind)| == |OfKind(b, kind)|
      && forall i :: 0 <= i < |OfKind(a, kind)| ==> SameButHeartbeat(OfKind(a, kind)[i], OfKind(b, kind)[i])
  }

  lemma LikeIsSame(a: seq<Condition>, b: seq<Condition>)
    ensures SameByKind(a, b) <==> LikeByKind(a, b)
  {
    forall kind
      ensures Plains(OfKind(a, kind)) == Plains(OfKind(b, kind)) <==>
              (|OfKind(a, kind)| == |OfKind(b, kind)| &&
               forall i :: 0 <= i < |OfKind(a, kind)| ==> SameButHeartbeat(OfKind(a, kind)[i], OfKind(b, kind)[i]))
    {
      PlainsAreLike(OfKind(a, kind), OfKind(b, kind));
    }
  }

  lemma PlainsAreLike(a: seq<Condition>, b: seq<Condition>)
    ensures Plains(a) == Plains(b) <==>
            |a| == |b| && forall i :: 0 <= i < |a| ==> SameButHeartbeat(a[i], b[i])
  {
    if |a| == |b| {
      forall i | 0 <= i < |a| ensures Plains(a)[i] == Plains(b)[i] <==> SameButHeartbeat(a[i], b[i]) {
        PlainForgets(a[i], b[i]);
      }
      if Plains(a) == Plains(b) {
        assert forall i :: 0 <= i < |a| ==> Plains(a)[i] == Plains(b)[i];
      }
    } else {
      assert |Plains(a)| != |Plains(b)|;
    }
  }

  lemma {:induction false} OfKindAppend(a: seq<Condition>, b: seq<Condition>, kind: string)
    ensures OfKind(a + b, kind) == OfKind(a, kind) + OfKind(b, kind)
  {
    if a == [] {
      assert a + b == b;
    } else {
      OfKindAppend(a[1..], b, kind);
      assert (a + b)[0] == a[0] && (a + b)[1..] == a[1..] + b;
      Associative(if a[0].kind == kind then [a[0]] else [], OfKind(a[1..], kind), OfKind(b, kind));
    }
  }

  lemma {:induction false} OfKindEmpty(s: seq<Condition>, kind: string)
    ensures OfKind(s, kind) == [] <==> forall i :: 0 <= i < |s| ==> s[i].kind != kind
  {
    if s != [] {
      OfKindEmpty(s[1..], kind);
      assert forall i :: 1 <= i < |s| ==> s[i] == s[1..][i - 1];
    }
  }

  lemma CountOneMore(head: Condition, tail: seq<Condition>, c: Condition)
    ensures multiset(Plains([head] + tail))[c] == multiset(Plains(tail))[c] + if Plain(head) == c then 1 else 0
  {
    PlainsFirst(head, tail);
    CountFirst(Plain(head), Plains(tail), c);
  }

  lemma PlainsFirst(head: Condition, tail: seq<Condition>)
    ensures Plains([head] + tail) == [Plain(head)] + Plains(tail)
  {
    var all := [head] + tail;
    forall i | 0 <= i < |all| ensures Plains(all)[i] == ([Plain(head)] + Plains(tail))[i] {
      assert i > 0 ==> all[i] == tail[i - 1];
    }
  }

  /** How often a condition occurs up to heartbeat is decided by the conditions of its type. */
  lemma {:induction false} CountByKind(s: seq<Condition>, c: Condition)
    ensures multiset(Plains(s))[c] == multiset(Plains(OfKind(s, c.kind)))[c]
  {
    if s != [] {
      var head, tail := s[0], s[1..];
      var own := OfKind(tail, c.kind);
      CountByKind(tail, c);
      assert s == [head] + tail;
      CountOneMore(head, tail, c);
      if head.kind == c.kind {
        assert OfKind(s, c.kind) == [head] + own;
        CountOneMore(head, own, c);
      } else {
        assert OfKind(s, c.kind) == own;
        assert Plain(head).kind == head.kind;
      }
    }
  }

  /** Lists that are the same type by type are permutations of each other up to heartbeat. */
  lemma SameIsPermutation(a: seq<Condition>, b: seq<Condition>)
    requires SameByKind(a, b)
    ensures multiset(Plains(a)) == multiset(Plains(b))
  {
    forall c ensures multiset(Plains(a))[c] == multiset(Plains(b))[c] {
      CountByKind(a, c);
      CountByKind(b, c);
    }
  }

  lemma {:induction false} OnlyOfKind(s: seq<Condition>, i: nat)
    requires i < |s| && DistinctKinds(s)
    ensures OfKind(s, s[i].kind) == [s[i]]
  {
    assert s == s[..i] + [s[i]] + s[i + 1..];
    OfKindAppend(s[..i] + [s[i]], s[i + 1..], s[i].kind);
    OfKindAppend(s[..i], [s[i]], s[i].kind);
    OfKindEmpty(s[..i], s[i].kind);
    OfKindEmpty(s[i + 1..], s[i].kind);
    assert [s[i]][1..] == [];
  }

  lemma PermutationFinds(a: seq<Condition>, b: seq<Condition>, i: nat) returns (j: nat)
    requires multiset(Plains(a)) == multiset(Plains(b)) && i < |a|
    ensures j < |b| && Plain(b[j]) == Plain(a[i])
  {
    assert Plains(a)[i] in multiset(Plains(b));
    j :| 0 <= j < |b| && Plains(b)[j] == Plains(a)[i];
  }

  lemma OneSide(a: seq<Condition>, b: seq<Condition>, kind: string)
    requires DistinctKinds(a) && DistinctKinds(b) && multiset(Plains(a)) == multiset(Plains(b))
    requires OfKind(a, kind) != []
    ensures Plains(OfKind(a, kind)) == Plains(OfKind(b, kind))
  {
    OfKindEmpty(a, kind);
    var i :| 0 <= i < |a| && a[i].kind == kind;
    var j := PermutationFinds(a, b, i);
    OnlyOfKind(a, i);
    OnlyOfKind(b, j);
    assert b[j].kind == Plain(b[j]).kind == Plain(a[i]).kind == kind;
    assert Plains([a[i]]) == Plains([b[j]]);
  }

  /** With one condition per type, lists are the same if each condition of either has its like in the other. */
  lemma MatchedIsSame(a: seq<Condition>, b: seq<Condition>)
    requires DistinctKinds(a) && DistinctKinds(b)
    ensures SameByKind(a, b) <==> Matched(a, b) && Matched(b, a)
  {
    if SameByKind(a, b) {
      SameIsPermutation(a, b);
      SameIsMatched(a, b);
      SameIsMatched(b, a);
    }
    if Matched(a, b) && Matched(b, a) {
      forall kind ensures Plains(OfKind(a, kind)) == Plains(OfKind(b, kind)) {
        OfKindEmpty(a, kind);
        OfKindEmpty(b, kind);
        if OfKind(a, kind) != [] {
          MatchedKind(a, b, kind);
        } else if OfKind(b, kind) != [] {
          MatchedKind(b, a, kind);
        }
      }
    }
  }

  lemma SameIsMatched(a: seq<Condition>, b: seq<Condition>)
    requires multiset(Plains(a)) == multiset(Plains(b))
    ensures Matched(a, b)
  {
    forall i | 0 <= i < |a| ensures HasLike(a[i], b) {
      var j := PermutationFinds(a, b, i);
      PlainForgets(a[i], b[j]);
    }
  }

  lemma MatchedKind(a: seq<Condition>, b: seq<Condition>, kind: string)
    requires DistinctKinds(a) && DistinctKinds(b) && Matched(a, b) && OfKind(a, kind) != []
    ensures Plains(OfKind(a, kind)) == Plains(OfKind(b, kind))
  {
    OfKindEmpty(a, kind);
    var i :| 0 <= i < |a| && a[i].kind == kind;
    assert HasLike(a[i], b);
    var j :| 0 <= j < |b| && SameButHeartbeat(a[i], b[j]);
    OnlyOfKind(a, i);
    OnlyOfKind(b, j);
    PlainsAreLike([a[i]], [b[j]]);
  }

  /** With one condition per type the converse holds. */
  lemma PermutationIsSame(a: seq<Condition>, b: seq<Condition>)
    requires DistinctKinds(a) && DistinctKinds(b)
    ensures SameByKind(a, b) <==> multiset(Plains(a)) == multiset(Plains(b))
  {
    if SameByKind(a, b) {
      SameIsPermutation(a, b);
    }
    if multiset(Plains(a)) == multiset(Plains(b)) {
      forall kind ensures Plains(OfKind(a, kind)) == Plains(OfKind(b, kind)) {
        if OfKind(a, kind) != [] {
          OneSide(a, b, kind);
        } else if OfKind(b, kind) != [] {
          OneSide(b, a, kind);
        }
      }
    }
  }

  /** Two conditions of one type in another order count as a change, although nothing was added or taken away. */
  lemma OrderWithinKindMatters(c: Condition, d: Condition)
    requires c.kind == d.kind && Plain(c) != Plain(d)
    ensures multiset(Plains([c, d])) == multiset(Plains([d, c])) && !SameByKind([c, d], [d, c])
  {
    assert Plains([c, d]) == [Plain(c), Plain(d)] && Plains([d, c]) == [Plain(d), Plain(c)];
    OfKindAppend([c], [d], c.kind);
    OfKindAppend([d], [c], c.kind);
    assert [c] + [d] == [c, d] && [d] + [c] == [d, c] && [c][1..] == [] == [d][1..];
    assert Plains(OfKind([c, d], c.kind))[0] == Plain(c) && Plains(OfKind([d, c], c.kind))[0] == Plain(d);
  }

  // ------------------------------------------------------------------ sorted lists

  ghost predicate Sorted(s: seq<Condition>) {
    forall i, j :: 0 <= i < j < |s| ==> LexLeq(s[i].kind, s[j].kind)
  }

  lemma FirstIsLeast(x: seq<Condition>, y: seq<Condition>)
    requires Sorted(x) && Sorted(y) && x != [] && OfKind(y, x[0].kind) != []
    ensures y != [] && LexLeq(y[0].kind, x[0].kind)
  {
    OfKindEmpty(y, x[0].kind);
    LexTotal(x[0].kind, x[0].kind);
  }

  /** Stable sorting is canonical: sorted lists that are the same type by type are the same. */
  lemma {:induction false} SortedSame(x: seq<Condition>, y: seq<Condition>)
    requires Sorted(x) && Sorted(y) && SameByKind(x, y)
    ensures Plains(x) == Plains(y)
  {
    var k := if x != [] then x[0].kind else if y != [] then y[0].kind else "";
    assert |Plains(OfKind(x, k))| == |Plains(OfKind(y, k))|;
    if x != [] && y != [] {
      var kx, ky := x[0].kind, y[0].kind;
      assert |Plains(OfKind(x, kx))| == |Plains(OfKind(y, kx))| && |Plains(OfKind(y, ky))| == |Plains(OfKind(x, ky))|;
      FirstIsLeast(x, y);
      FirstIsLeast(y, x);
      LexTotal(kx, ky);
      assert Plains(OfKind(x, kx))[0] == Plain(x[0]) && Plains(OfKind(y, kx))[0] == Plain(y[0]);
      forall kind ensures Plains(OfKind(x[1..], kind)) == Plains(OfKind(y[1..], kind)) {
        TailOfKind(x, kind);
        TailOfKind(y, kind);
      }
      SortedSame(x[1..], y[1..]);
      assert Plains(x) == [Plain(x[0])] + Plains(x[1..]) && Plains(y) == [Plain(y[0])] + Plains(y[1..]);
    }
  }

  lemma TailOfKind(x: seq<Condition>, kind: string)
    requires x != []
    ensures Plains(OfKind(x[1..], kind)) ==
            if x[0].kind == kind then Plains(OfKind(x, kind))[1..] else Plains(OfKind(x, kind))
  {
  }

  lemma {:induction false} PlainsOfKind(x: seq<Condition>, kind: string)
    ensures Plains(OfKind(x, kind)) == OfKind(Plains(x), kind)
  {
    if x != [] {
      PlainsOfKind(x[1..], kind);
      assert Plains(x)[1..] == Plains(x[1..]);
      assert Plains(x)[0].kind == x[0].kind;
    }
  }

  // ------------------------------------------------------------------ the code

  /** Exchanging neighbours of different types leaves the order within each type alone. */
  lemma SwapKeepsKinds(s: seq<Condition>, j: nat, kind: string)
    requires 0 < j < |s| && s[j - 1].kind != s[j].kind
    ensures OfKind(s[j - 1 := s[j]][j := s[j - 1]], kind) == OfKind(s, kind)
  {
    var front, c, d, back := s[..j - 1], [s[j - 1]], [s[j]], s[j + 1..];
    assert s == front + (c + d) + back;
    assert s[j - 1 := s[j]][j := s[j - 1]] == front + (d + c) + back;
    OfKindAppend(c, d, kind);
    OfKindAppend(d, c, kind);
    assert c[1..] == [] && d[1..] == [];
    assert OfKind(c + d, kind) == OfKind(d + c, kind);
    OfKindAppend(front, c + d, kind);
    OfKindAppend(front, d + c, kind);
    OfKindAppend(front + (c + d), back, kind);
    OfKindAppend(front + (d + c), back, kind);
  }

  ghost predicate SameKinds(s: seq<Condition>, t: seq<Condition>) {
    |s| == |t| && forall kind :: OfKind(s, kind) == OfKind(t, kind)
  }

  /** The first n are in order, except for the one at k, which may belong further to the front. */
  ghost predicate SortedBut(s: seq<Condition>, n: nat, k: nat)
    requires n <= |s|
  {
    forall p, q :: 0 <= p < q < n && q != k ==> LexLeq(s[p].kind, s[q].kind)
  }

  lemma SwapSorts(s: seq<Condition>, n: nat, k: nat)
    requires 0 < k < n <= |s| && SortedBut(s, n, k) && !LexLeq(s[k - 1].kind, s[k].kind)
    ensures SortedBut(s[k - 1 := s[k]][k := s[k - 1]], n, k - 1)
    ensures SameKinds(s[k - 1 := s[k]][k := s[k - 1]], s)
  {
    LexTotal(s[k - 1].kind, s[k].kind);
    LexTotal(s[k].kind, s[k].kind);
    forall kind ensures OfKind(s[k - 1 := s[k]][k := s[k - 1]], kind) == OfKind(s, kind) {
      SwapKeepsKinds(s, k, kind);
    }
  }

  lemma Settled(s: seq<Condition>, n: nat, k: nat)
    requires k < n <= |s| && SortedBut(s, n, k)
    requires k > 0 ==> LexLeq(s[k - 1].kind, s[k].kind)
    ensures Sorted(s[..n])
  {
    forall p, q | 0 <= p < q < n ensures LexLeq(s[p].kind, s[q].kind) {
      if q == k && p < k - 1 {
        LexTransitive(s[p].kind, s[k - 1].kind, s[k].kind);
      }
    }
  }

  /** sort.SliceStable by type, in place. */
  method SortStable(a: array<Condition>)
    modifies a
    ensures Sorted(a[..]) && SameKinds(a[..], old(a[..]))
  {
    for i := 0 to a.Length
      invariant Sorted(a[..i]) && SameKinds(a[..], old(a[..]))
    {
      var k := i;
      assert a[..][..i] == a[..i];
      while k > 0 && !LexLeq(a[k - 1].kind, a[k].kind)
        invariant 0 <= k <= i
        invariant SortedBut(a[..], i + 1, k) && SameKinds(a[..], old(a[..]))
      {
        ghost var s := a[..];
        SwapSorts(s, i + 1, k);
        a[k - 1], a[k] := a[k], a[k - 1];
        assert a[..] == s[k - 1 := s[k]][k := s[k - 1]];
        k := k - 1;
      }
      Settled(a[..], i + 1, k);
      assert a[..i + 1] == a[..][..i + 1];
    }
    assert a[..a.Length] == a[..];
  }

  method Copy(s: seq<Condition>) returns (a: array<Condition>)
    ensures fresh(a) && a[..] == s
  {
    a := new Condition[|s|](i requires 0 <= i < |s| => s[i]);
  }

  lemma SortedDecides(a: seq<Condition>, b: seq<Condition>, x: seq<Condition>, y: seq<Condition>)
    requires Sorted(x) && Sorted(y) && SameKinds(x, a) && SameKinds(y, b)
    ensures Plains(x) == Plains(y) <==> SameByKind(a, b)
  {
    if SameByKind(a, b) {
      assert SameByKind(x, y);
      SortedSame(x, y);
    }
    if Plains(x) == Plains(y) {
      forall kind ensures Plains(OfKind(a, kind)) == Plains(OfKind(b, kind)) {
        PlainsOfKind(x, kind);
        PlainsOfKind(y, kind);
        assert OfKind(x, kind) == OfKind(a, kind) && OfKind(y, kind) == OfKind(b, kind);
      }
    }
  }

  /** The answer is no exactly if, type by type, both lists hold the same conditions in the same order up to
      heartbeat. */
  method NodeConditionsHaveChanged(original: seq<Condition>, conditions: seq<Condition>) returns (changed: bool)
    ensures !changed <==> SameByKind(original, conditions)
    ensures !changed <==> LikeByKind(original, conditions)
    ensures DistinctKinds(original) && DistinctKinds(conditions) ==>
              (!changed <==> Matched(original, conditions) && Matched(conditions, original))
    ensures !changed ==> multiset(Plains(original)) == multiset(Plains(conditions))
    ensures DistinctKinds(original) && DistinctKinds(conditions) ==>
              (!changed <==> multiset(Plains(original)) == multiset(Plains(conditions)))
  {
    if SameByKind(original, conditions) { SameIsPermutation(original, conditions); }
    LikeIsSame(original, conditions);
    if DistinctKinds(original) && DistinctKinds(conditions) {
      PermutationIsSame(original, conditions);
      MatchedIsSame(original, conditions);
    }
    if |original| != |conditions| {
      assert |Plains(original)| != |Plains(conditions)|;
      assert |multiset(Plains(original))| != |multiset(Plains(conditions))|;
      return true;
    }
    var a := Copy(original);
    var b := Copy(conditions);
    SortStable(a);
    SortStable(b);
    ghost var x, y := a[..], b[..];
    SortedDecides(original, conditions, x, y);
    changed := CompareCopies(a, b);
  }

  /** The last loop: heartbeats are overwritten in the copies, which are then compared. */
  method CompareCopies(a: array<Condition>, b: array<Condition>) returns (changed: bool)
    requires a != b && a.Length == b.Length
    modifies a, b
    ensures !changed <==> Plains(old(a[..])) == Plains(old(b[..]))
  {
    ghost var x, y := a[..], b[..];
    for i := 0 to a.Length
      invariant forall k :: i <= k < a.Length ==> a[k] == x[k] && b[k] == y[k]
      invariant forall k :: 0 <= k < i ==> Plains(x)[k] == Plains(y)[k]
    {
      a[i] := a[i].(heartbeat := 0);
      b[i] := b[i].(heartbeat := 0);
      if a[i] != b[i] {
        assert Plains(x)[i] != Plains(y)[i];
        return true;
      }
    }
    return false;
  }
}
