/** Compression of test names into SIG prefixes (hack/update_owners.py, `sig_prefixes`). */
module SigPrefixes {
  import opened Options
  import opened Sequences
  import opened Strings
  import opened TestNames

  // ------------------------------------------------------------------ one rewrite

  datatype Entry = Entry(name: string, sig: string)

  type Owns = seq<Entry>

  /** Every test beginning with the shortened name has this entry's sig. */
  predicate Reducible(owns: Owns, e: Entry) {
    forall f :: f in owns && Shorter(e.name) <= f.name ==> f.sig == e.sig
  }

  /** `[[n, s] for n, s in owns if not n.startswith(prefix)]` */
  function Without(owns: Owns, prefix: string): Owns {
    if owns == [] then []
    else (if prefix <= owns[0].name then [] else [owns[0]]) + Without(owns[1..], prefix)
  }

  function Rewrite(owns: Owns, e: Entry): Owns {
    Without(owns, Shorter(e.name)) + [Entry(Shorter(e.name), e.sig)]
  }

  function Total(owns: Owns): nat {
    if owns == [] then 0 else |owns[0].name| + Total(owns[1..])
  }

  lemma {:induction false} InWithout(owns: Owns, prefix: string, f: Entry)
    ensures f in Without(owns, prefix) <==> f in owns && !(prefix <= f.name)
  {
    if owns != [] { InWithout(owns[1..], prefix, f); }
  }

  lemma InRewrite(owns: Owns, e: Entry, f: Entry)
    ensures f in Rewrite(owns, e) <==>
            (f in owns && !(Shorter(e.name) <= f.name)) || f == Entry(Shorter(e.name), e.sig)
  {
    InWithout(owns, Shorter(e.name), f);
  }

  ghost predicate WellFormed(owns: Owns) {
    && (forall e :: e in owns ==> Normalized(e.name))
    && (forall e, f :: e in owns && f in owns && e.name == f.name ==> e == f)
  }

  lemma RewriteWellFormed(owns: Owns, e: Entry)
    requires WellFormed(owns) && e in owns
    ensures WellFormed(Rewrite(owns, e))
  {
    ShorterIsPrefix(e.name);
    forall f { InRewrite(owns, e, f); }
  }

  function Sigs(owns: Owns): set<string> {
    set e | e in owns :: e.sig
  }

  /** A rewrite neither loses nor invents a sig. */
  lemma RewriteSigs(owns: Owns, e: Entry)
    requires WellFormed(owns) && e in owns && Reducible(owns, e)
    ensures Sigs(Rewrite(owns, e)) == Sigs(owns)
  {
    var r := Rewrite(owns, e);
    forall f ensures f in r <==> (f in owns && !(Shorter(e.name) <= f.name)) || f == Entry(Shorter(e.name), e.sig) {
      InRewrite(owns, e, f);
    }
    forall sig | sig in Sigs(owns) ensures sig in Sigs(r) {
      var f :| f in owns && f.sig == sig;
      if Shorter(e.name) <= f.name { assert Entry(Shorter(e.name), e.sig) in r; } else { assert f in r; }
    }
  }

  // ------------------------------------------------------------------ meaning

  /** `e` is the longest entry whose name is a prefix of `test`. */
  ghost predicate LooksUp(owns: Owns, test: string, e: Entry) {
    e in owns && e.name <= test && forall f :: f in owns && f.name <= test ==> |f.name| <= |e.name|
  }

  lemma LookupUnique(owns: Owns, test: string, e: Entry, f: Entry)
    requires WellFormed(owns) && LooksUp(owns, test, e) && LooksUp(owns, test, f)
    ensures e == f
  {
    assert e.name == test[..|e.name|] == f.name;
  }

  /** No other entry begins with this one's name. */
  ghost predicate Alone(owns: Owns, e: Entry) {
    forall f :: f in owns && e.name <= f.name ==> f == e
  }

  /** The test still looks up `sig`, through its own entry or through a prefix that stands alone. */
  ghost predicate Means(owns: Owns, test: string, sig: string) {
    exists e :: LooksUp(owns, test, e) && e.sig == sig && (e.name == test || Alone(owns, e))
  }

  /** What looked up a removed entry now looks up the prefix that replaced it. */
  lemma RewriteMoves(owns: Owns, e: Entry, test: string, h: Entry)
    requires WellFormed(owns) && e in owns && Reducible(owns, e)
    requires LooksUp(owns, test, h) && Shorter(e.name) <= h.name
    ensures Means(Rewrite(owns, e), test, h.sig)
  {
    var p, r := Shorter(e.name), Rewrite(owns, e);
    var made := Entry(p, e.sig);
    forall f ensures f in r <==> (f in owns && !(p <= f.name)) || f == made { InRewrite(owns, e, f); }
    assert LooksUp(r, test, made) && Alone(r, made);
  }

  /** What looked up a kept entry still does: the new prefix is not a prefix of the test, since otherwise the kept
      entry would be a shorter prefix of `e` as well, hence not alone. */
  lemma RewriteStays(owns: Owns, e: Entry, test: string, h: Entry)
    requires WellFormed(owns) && e in owns
    requires LooksUp(owns, test, h) && (h.name == test || Alone(owns, h)) && !(Shorter(e.name) <= h.name)
    ensures Means(Rewrite(owns, e), test, h.sig)
  {
    var p, r := Shorter(e.name), Rewrite(owns, e);
    var made := Entry(p, e.sig);
    ShorterIsPrefix(e.name);
    forall f ensures f in r <==> (f in owns && !(p <= f.name)) || f == made { InRewrite(owns, e, f); }
    assert LooksUp(r, test, h);
  }

  lemma RewriteMeans(owns: Owns, e: Entry, test: string, sig: string)
    requires WellFormed(owns) && e in owns && Reducible(owns, e) && Means(owns, test, sig)
    ensures Means(Rewrite(owns, e), test, sig)
  {
    var h :| LooksUp(owns, test, h) && h.sig == sig && (h.name == test || Alone(owns, h));
    if Shorter(e.name) <= h.name { RewriteMoves(owns, e, test, h); } else { RewriteStays(owns, e, test, h); }
  }

  /** A rewrite in full, for every name: one that begins with the new prefix looks up the new prefix, and any other
      looks up what it did, or still nothing. */
  lemma RewriteLookup(owns: Owns, e: Entry, t: string, h: Entry)
    requires WellFormed(owns) && e in owns
    ensures LooksUp(Rewrite(owns, e), t, h) <==>
            if Shorter(e.name) <= t then h == Entry(Shorter(e.name), e.sig) else LooksUp(owns, t, h)
  {
    var p, r := Shorter(e.name), Rewrite(owns, e);
    var made := Entry(p, e.sig);
    forall f ensures f in r <==> (f in owns && !(p <= f.name)) || f == made { InRewrite(owns, e, f); }
    if p <= t {
      forall f | f in r && f.name <= t ensures |f.name| <= |p| {
        assert |f.name| > |p| ==> p <= f.name;
      }
      assert LooksUp(r, t, made);
      RewriteWellFormed(owns, e);
      if LooksUp(r, t, h) { LookupUnique(r, t, h, made); }
    } else {
      forall f: Entry | f.name <= t ensures f in r <==> f in owns {
        assert p <= f.name ==> p <= t;
      }
    }
  }

  ghost predicate Finds(owns: Owns, t: string, sig: string) {
    exists h :: LooksUp(owns, t, h) && h.sig == sig
  }

  /** The guard of a rewrite at `e` that is safe for the name: the new prefix does not cover it, or has its sig. */
  predicate Spares(e: Entry, t: string, sig: string) {
    !(Shorter(e.name) <= t) || e.sig == sig
  }

  /** A name, listed or not, keeps its sig over a rewrite if and only if the new prefix does not cover it or carries
      that sig. */
  lemma RewriteKeepsIff(owns: Owns, e: Entry, t: string, sig: string)
    requires WellFormed(owns) && e in owns && Finds(owns, t, sig)
    ensures Finds(Rewrite(owns, e), t, sig) <==> Spares(e, t, sig)
  {
    var r, made := Rewrite(owns, e), Entry(Shorter(e.name), e.sig);
    forall h { RewriteLookup(owns, e, t, h); }
    if Shorter(e.name) <= t {
      assert LooksUp(r, t, made);
    } else {
      var h :| LooksUp(owns, t, h) && h.sig == sig;
      assert LooksUp(r, t, h);
    }
  }

  /** A name that found nothing finds something after a rewrite if and only if the new prefix covers it, and then it
      finds the sig of the new prefix. */
  lemma RewriteFindsIff(owns: Owns, e: Entry, t: string, sig: string)
    requires WellFormed(owns) && e in owns && forall h :: !LooksUp(owns, t, h)
    ensures Finds(Rewrite(owns, e), t, sig) <==> Shorter(e.name) <= t && e.sig == sig
  {
    var made := Entry(Shorter(e.name), e.sig);
    forall h { RewriteLookup(owns, e, t, h); }
    if Shorter(e.name) <= t { assert LooksUp(Rewrite(owns, e), t, made); }
  }

  // ------------------------------------------------------------------ runs of rewrites

  /** Any sequence of rewrites, whichever reducible entry each pass happens to pick. */
  ghost predicate IsRun(run: seq<Owns>) {
    run != [] && forall i, j :: 0 <= i && j == i + 1 < |run| ==> Steps(run[i], run[j])
  }

  /** One pass of the loop that changes something; sorting first only reorders the entries. */
  ghost predicate Steps(owns: Owns, owns': Owns) {
    exists e :: StepsAt(owns, e, owns')
  }

  /** The pass that rewrites at `e`. */
  ghost predicate StepsAt(owns: Owns, e: Entry, owns': Owns) {
    exists sorted ::
      multiset(sorted) == multiset(owns) && e in sorted && Reducible(sorted, e) && owns' == Rewrite(sorted, e)
  }

  lemma {:induction false} TotalWithout(owns: Owns, e: Entry, prefix: string)
    ensures Total(Without(owns, prefix)) <= Total(owns)
    ensures e in owns && prefix <= e.name ==> Total(Without(owns, prefix)) + |e.name| <= Total(owns)
  {
    if owns != [] {
      TotalWithout(owns[1..], e, prefix);
      var rest := Without(owns[1..], prefix);
      assert ([owns[0]] + rest)[1..] == rest && [] + rest == rest;
    }
  }

  lemma {:induction false} TotalSnoc(owns: Owns, e: Entry)
    ensures Total(owns + [e]) == Total(owns) + |e.name|
  {
    if owns == [] {
      assert owns + [e] == [e];
    } else {
      TotalSnoc(owns[1..], e);
      assert (owns + [e])[1..] == owns[1..] + [e];
    }
  }

  lemma {:induction false} TotalSplit(a: Owns, e: Entry, b: Owns)
    ensures Total(a + [e] + b) == Total(a + b) + |e.name|
  {
    if a == [] {
      assert (a + [e] + b)[1..] == b && a + b == b;
    } else {
      TotalSplit(a[1..], e, b);
      assert (a + [e] + b)[1..] == a[1..] + [e] + b && (a + b)[1..] == a[1..] + b;
    }
  }

  lemma TakeOut(b: Owns, i: nat)
    requires i < |b|
    ensures multiset(b[..i] + b[i + 1..]) == multiset(b) - multiset{b[i]}
    ensures Total(b) == Total(b[..i] + b[i + 1..]) + |b[i].name|
  {
    assert b == b[..i] + [b[i]] + b[i + 1..];
    TotalSplit(b[..i], b[i], b[i + 1..]);
  }

  lemma {:induction false} TotalPermutes(a: Owns, b: Owns)
    requires multiset(a) == multiset(b)
    ensures Total(a) == Total(b)
    decreases |a|
  {
    assert |a| == |multiset(a)| == |multiset(b)| == |b|;
    if a != [] {
      assert a[0] in multiset(a);
      var i :| 0 <= i < |b| && b[i] == a[0];
      var rest := b[..i] + b[i + 1..];
      TakeOut(b, i);
      assert a == [a[0]] + a[1..];
      assert multiset(a[1..]) == multiset(a) - multiset{a[0]} == multiset(rest);
      TotalPermutes(a[1..], rest);
    }
  }

  /** With two sigs or more, a rewrite shortens the names in total: the prefix it makes is never the empty one. */
  lemma RewriteShrinks(owns: Owns, e: Entry)
    requires WellFormed(owns) && e in owns && Reducible(owns, e) && |Sigs(owns)| != 1
    ensures Total(Rewrite(owns, e)) < Total(owns)
  {
    ShorterIsPrefix(e.name);
    if e.name == "" {
      OnlySig(owns, e);
    }
    TotalWithout(owns, e, Shorter(e.name));
    TotalSnoc(Without(owns, Shorter(e.name)), Entry(Shorter(e.name), e.sig));
  }

  lemma OnlySig(owns: Owns, e: Entry)
    requires e in owns && forall f :: f in owns ==> f.sig == e.sig
    ensures Sigs(owns) == {e.sig} && |Sigs(owns)| == 1
  {
  }

  /** With exactly one sig every entry is reducible, so a pass always changes something. */
  lemma OneSigNeverStops(owns: Owns, e: Entry)
    requires e in owns && |Sigs(owns)| == 1
    ensures Reducible(owns, e)
  {
    forall f | f in owns ensures f.sig == e.sig {
      if f.sig != e.sig {
        assert {e.sig, f.sig} <= Sigs(owns);
        TwoAtLeast(Sigs(owns), e.sig, f.sig);
        assert false;
      }
    }
  }

  lemma TwoAtLeast(s: set<string>, a: string, b: string)
    requires a in s && b in s && a != b
    ensures |s| >= 2
  {
    assert s == (s - {a}) + {a};
    assert b in s - {a};
  }

  lemma SameEntries(a: Owns, b: Owns)
    requires multiset(a) == multiset(b)
    ensures forall e :: e in a <==> e in b
    ensures Sigs(a) == Sigs(b)
  {
    forall e ensures e in a <==> e in b {
      assert e in multiset(a) <==> e in a;
      assert e in multiset(b) <==> e in b;
    }
  }

  lemma StepFacts(owns: Owns, owns': Owns)
    requires WellFormed(owns) && Steps(owns, owns')
    ensures WellFormed(owns') && Sigs(owns') == Sigs(owns)
    ensures |Sigs(owns)| != 1 ==> Total(owns') < Total(owns)
  {
    var e :| StepsAt(owns, e, owns');
    var sorted :|
      multiset(sorted) == multiset(owns) && e in sorted && Reducible(sorted, e) && owns' == Rewrite(sorted, e);
    SameEntries(sorted, owns);
    TotalPermutes(sorted, owns);
    RewriteWellFormed(sorted, e);
    RewriteSigs(sorted, e);
    if |Sigs(owns)| != 1 { RewriteShrinks(sorted, e); }
  }

  lemma StepMeans(owns: Owns, owns': Owns, test: string, sig: string)
    requires WellFormed(owns) && Steps(owns, owns') && Means(owns, test, sig)
    ensures Means(owns', test, sig)
  {
    var e :| StepsAt(owns, e, owns');
    var sorted :|
      multiset(sorted) == multiset(owns) && e in sorted && Reducible(sorted, e) && owns' == Rewrite(sorted, e);
    SameEntries(sorted, owns);
    var h :| LooksUp(owns, test, h) && h.sig == sig && (h.name == test || Alone(owns, h));
    assert LooksUp(sorted, test, h) && (h.name == test || Alone(sorted, h));
    RewriteMeans(sorted, e, test, sig);
  }

  /** At every point of every run no sig is lost or invented, and a run over two sigs or more (or over none) has at
      most as many rewrites as the names have characters. */
  lemma {:induction false} RunFacts(run: seq<Owns>, n: nat)
    requires IsRun(run) && WellFormed(run[0]) && n < |run|
    ensures WellFormed(run[n]) && Sigs(run[n]) == Sigs(run[0])
    ensures |Sigs(run[0])| != 1 ==> n + Total(run[n]) <= Total(run[0])
  {
    if n > 0 {
      RunFacts(run, n - 1);
      assert Steps(run[n - 1], run[n]);
      StepFacts(run[n - 1], run[n]);
    }
  }

  lemma OwnEntryMeans(owns: Owns, test: Entry)
    requires test in owns
    ensures Means(owns, test.name, test.sig)
  {
    assert LooksUp(owns, test.name, test);
  }

  /** At every point of every run, every original test still looks up its own sig. */
  lemma {:induction false} RunMeans(run: seq<Owns>, n: nat, test: Entry)
    requires IsRun(run) && WellFormed(run[0]) && n < |run| && test in run[0]
    ensures Means(run[n], test.name, test.sig)
  {
    if n == 0 {
      OwnEntryMeans(run[0], test);
    } else {
      RunMeans(run, n - 1, test);
      RunFacts(run, n - 1);
      assert Steps(run[n - 1], run[n]);
      StepMeans(run[n - 1], run[n], test.name, test.sig);
    }
  }

  ghost predicate Stuck(owns: Owns) {
    forall e {:trigger Reducible(owns, e)} :: e in owns ==> !Reducible(owns, e)
  }

  /** The loop can stop exactly when the tests do not all share one sig: from one sig every run goes on forever, and
      from none or several every run is bounded, so it ends where no entry is reducible. */
  lemma {:induction false} StopsIffNotOneSig(run: seq<Owns>)
    requires IsRun(run) && WellFormed(run[0])
    ensures |Sigs(run[0])| == 1 ==> !Stuck(run[|run| - 1]) && run[|run| - 1] != []
    ensures |Sigs(run[0])| != 1 ==> |run| <= Total(run[0]) + 1
  {
    var n := |run| - 1;
    RunFacts(run, n);
    if |Sigs(run[0])| == 1 {
      var sig :| sig in Sigs(run[n]);
      var e :| e in run[n] && e.sig == sig;
      OneSigNeverStops(run[n], e);
    }
  }

  // ------------------------------------------------------------------ names that were never listed

  /** A run together with the entries at which its passes rewrite. */
  ghost predicate IsRunAt(run: seq<Owns>, picks: seq<Entry>) {
    && |run| == |picks| + 1
    && forall i, j :: 0 <= i && j == i + 1 < |run| ==> StepsAt(run[i], picks[i], run[j])
  }

  /** The last of the picks whose new prefix covers the name. */
  function LastCover(picks: seq<Entry>, t: string): Option<Entry> {
    if picks == [] then None
    else
      var last := |picks| - 1;
      if Shorter(picks[last].name) <= t then Some(picks[last]) else LastCover(picks[..last], t)
  }

  lemma StepLookup(owns: Owns, e: Entry, owns': Owns, t: string, h: Entry)
    requires WellFormed(owns) && StepsAt(owns, e, owns')
    ensures LooksUp(owns', t, h) <==>
            if Shorter(e.name) <= t then h == Entry(Shorter(e.name), e.sig) else LooksUp(owns, t, h)
  {
    var sorted :|
      multiset(sorted) == multiset(owns) && e in sorted && Reducible(sorted, e) && owns' == Rewrite(sorted, e);
    SameEntries(sorted, owns);
    RewriteLookup(sorted, e, t, h);
  }

  lemma {:induction false} RunAtIsRun(run: seq<Owns>, picks: seq<Entry>)
    requires IsRunAt(run, picks)
    ensures IsRun(run)
  {
    forall i, j | 0 <= i && j == i + 1 < |run| ensures Steps(run[i], run[j]) {
      assert StepsAt(run[i], picks[i], run[j]);
    }
  }

  /** What any name looks up at any point of any run: the prefix made by the last rewrite that covers it, or what it
      looked up at the start if none did. */
  lemma {:induction false} RunLookup(run: seq<Owns>, picks: seq<Entry>, n: nat, t: string, h: Entry)
    requires IsRunAt(run, picks) && WellFormed(run[0]) && n <= |picks|
    ensures LooksUp(run[n], t, h) <==> LooksUpAfter(LastCover(picks[..n], t), run[0], t, h)
  {
    if n > 0 {
      RunLookup(run, picks, n - 1, t, h);
      RunAtStep(run, picks, n - 1, n);
      StepLookup(run[n - 1], picks[n - 1], run[n], t, h);
      LastCoverOneMore(picks, n, t);
    }
  }

  ghost predicate LooksUpAfter(cover: Option<Entry>, start: Owns, t: string, h: Entry) {
    match cover
    case Some(e) => h == Entry(Shorter(e.name), e.sig)
    case None => LooksUp(start, t, h)
  }

  lemma LastCoverOneMore(picks: seq<Entry>, n: nat, t: string)
    requires 0 < n <= |picks|
    ensures LastCover(picks[..n], t) ==
            if Shorter(picks[n - 1].name) <= t then Some(picks[n - 1]) else LastCover(picks[..n - 1], t)
  {
    assert picks[..n][..n - 1] == picks[..n - 1];
  }

  lemma RunAtStep(run: seq<Owns>, picks: seq<Entry>, i: nat, j: nat)
    requires IsRunAt(run, picks) && WellFormed(run[0]) && j == i + 1 < |run|
    ensures WellFormed(run[i]) && StepsAt(run[i], picks[i], run[j])
  {
    RunAtIsRun(run, picks);
    RunFacts(run, i);
  }

  /** A name, listed or not, has its sig at the end of a run if and only if no rewrite covered it or the last one that
      did carries that sig. */
  lemma RunKeepsIff(run: seq<Owns>, picks: seq<Entry>, t: string, sig: string)
    requires IsRunAt(run, picks) && WellFormed(run[0]) && Finds(run[0], t, sig)
    ensures Finds(run[|picks|], t, sig) <==>
            LastCover(picks, t) == None || LastCover(picks, t).value.sig == sig
  {
    var n := |picks|;
    assert picks[..n] == picks;
    forall h { RunLookup(run, picks, n, t, h); }
    if LastCover(picks, t).Some? {
      var e := LastCover(picks, t).value;
      assert LooksUp(run[n], t, Entry(Shorter(e.name), e.sig));
    } else {
      var h :| LooksUp(run[0], t, h) && h.sig == sig;
      assert LooksUp(run[n], t, h);
    }
  }

  /** At every point up to the `n`-th the name finds the sig. */
  ghost predicate FindsUpTo(run: seq<Owns>, n: nat, t: string, sig: string)
    requires n < |run|
  {
    Finds(run[n], t, sig) && (n > 0 ==> FindsUpTo(run, n - 1, t, sig))
  }

  /** Each of the first `n` rewrites spares it. */
  predicate SparesUpTo(picks: seq<Entry>, n: nat, t: string, sig: string)
    requires n <= |picks|
  {
    n > 0 ==> Spares(picks[n - 1], t, sig) && SparesUpTo(picks, n - 1, t, sig)
  }

  /** It has its sig all along if and only if every rewrite spares it. */
  lemma {:induction false} RunSparesIff(run: seq<Owns>, picks: seq<Entry>, n: nat, t: string, sig: string)
    requires IsRunAt(run, picks) && WellFormed(run[0]) && Finds(run[0], t, sig) && n <= |picks|
    ensures FindsUpTo(run, n, t, sig) <==> SparesUpTo(picks, n, t, sig)
  {
    if n > 0 {
      RunSparesIff(run, picks, n - 1, t, sig);
      RunAtStep(run, picks, n - 1, n);
      if FindsUpTo(run, n - 1, t, sig) {
        StepKeepsIff(run[n - 1], picks[n - 1], run[n], t, sig);
      }
    }
  }

  lemma StepKeepsIff(owns: Owns, e: Entry, owns': Owns, t: string, sig: string)
    requires WellFormed(owns) && StepsAt(owns, e, owns') && Finds(owns, t, sig)
    ensures Finds(owns', t, sig) <==> Spares(e, t, sig)
  {
    var sorted :|
      multiset(sorted) == multiset(owns) && e in sorted && Reducible(sorted, e) && owns' == Rewrite(sorted, e);
    SameEntries(sorted, owns);
    var h :| LooksUp(owns, t, h) && h.sig == sig;
    assert LooksUp(sorted, t, h);
    RewriteKeepsIff(sorted, e, t, sig);
  }

  /** Such names exist: a name that was never listed may change its sig. */
  lemma UnlistedMayChange(a: string, b: string, c: string, d: string, x: string, y: string)
    requires Clean(a) && Clean(b) && Clean(c) && Clean(d) && |c| == |d| && c != d && x != y
    ensures var ab := a + " " + b;
            var owns, e := [Entry(a, x), Entry(ab + " " + c, y)], Entry(ab + " " + c, y);
            && e in owns && Reducible(owns, e)
            && LooksUp(owns, ab + " " + d, Entry(a, x))
            && LooksUp(Rewrite(owns, e), ab + " " + d, Entry(ab, y))
  {
    var ab := a + " " + b;
    var abc, abd := ab + " " + c, ab + " " + d;
    var owns, e := [Entry(a, x), Entry(abc, y)], Entry(abc, y);
    WordOf(a);
    WordsAppend(a, b);
    WordsAppend(ab, c);
    assert Words(abc) == [a, b, c] && Words(abc)[..2] == [a, b] && [a, b][..1] == [a];
    assert Join([a]) == a && Join([a, b]) == ab;
    assert Shorter(abc) == Join([a, b]);
    forall f { InRewrite(owns, e, f); }
    assert ab <= abd && a <= abd;
    assert !(abc <= abd) by {
      assert abc[|ab| + 1..] == c && abd[|ab| + 1..] == d;
    }
    assert owns[0] == Entry(a, x) && owns[1] == e;
  }

  // ------------------------------------------------------------------ where every run ends

  /** Only this sig is found among the names that begin with `p`. */
  ghost predicate Pure(owns: Owns, p: string, sig: string) {
    forall f :: f in owns && p <= f.name ==> f.sig == sig
  }

  /** The first `k` words of the test, and not all of them, are the fewest that only its sig uses. */
  ghost predicate ShrinksAt(owns: Owns, l: Entry, k: nat) {
    && k < |Words(l.name)| && Pure(owns, Front(l.name, k), l.sig)
    && (k > 0 ==> !Pure(owns, Front(l.name, k - 1), l.sig))
  }

  ghost predicate Shrinks(owns: Owns, l: Entry) {
    exists k: nat :: ShrinksAt(owns, l, k)
  }

  /** `e` is what some test shrinks to. */
  ghost predicate MadeOf(owns: Owns, e: Entry) {
    exists l, k: nat :: MadeFrom(owns, e, l, k)
  }

  ghost predicate MadeFrom(owns: Owns, e: Entry, l: Entry, k: nat) {
    l in owns && l.sig == e.sig && ShrinksAt(owns, l, k) && e.name == Front(l.name, k)
  }

  /** What the compression leaves, said of the list it starts from: what tests shrink to, and the tests that do not
      shrink, except for those that begin with something else that a test shrinks to. */
  ghost predicate Final(owns: Owns, e: Entry) {
    && (MadeOf(owns, e) || (e in owns && !Shrinks(owns, e)))
    && forall q :: MadeOf(owns, q) && q.name <= e.name ==> q.name == e.name
  }

  // ---- what stays true of a list on the way

  /** Some of the first words of a test with this sig, and only this sig uses them. */
  ghost predicate Proper(owns: Owns, m: Entry) {
    Pure(owns, m.name, m.sig) && exists l, k: nat :: IsFront(owns, m, l, k)
  }

  ghost predicate IsFront(owns: Owns, m: Entry, l: Entry, k: nat) {
    l in owns && l.sig == m.sig && k < |Words(l.name)| && m.name == Front(l.name, k)
  }

  ghost predicate CoveredBy(start: Owns, owns: Owns, q: Entry, name: string) {
    q in owns && Proper(start, q) && q.name <= name && Alone(owns, q)
  }

  ghost predicate Reached(owns: Owns, p: string) {
    exists f :: f in owns && p <= f.name
  }

  /** An entry on the way is a test of the start, or made. */
  ghost predicate FromStart(start: Owns, m: Entry) {
    m in start || Proper(start, m)
  }

  /** A test of the start is still there, or covered by a made entry that stands alone. */
  ghost predicate Settled(start: Owns, owns: Owns, l: Entry) {
    l in owns || exists q :: CoveredBy(start, owns, q, l.name)
  }

  /** Where names begin with `p`, the sigs that use it are those that did at the start. */
  ghost predicate SamePurity(start: Owns, owns: Owns, p: string, sig: string) {
    Reached(owns, p) ==> (Pure(owns, p, sig) <==> Pure(start, p, sig))
  }

  ghost predicate Follows(start: Owns, owns: Owns) {
    && (forall m {:trigger FromStart(start, m)} :: m in owns ==> FromStart(start, m))
    && (forall l {:trigger Settled(start, owns, l)} :: l in start ==> Settled(start, owns, l))
    && (forall p, sig {:trigger SamePurity(start, owns, p, sig)} :: SamePurity(start, owns, p, sig))
  }

  /** Two prefixes of one string are prefixes of each other. */
  lemma Comparable(a: string, b: string, s: string)
    requires a <= s && b <= s
    ensures |a| <= |b| ==> a <= b
    ensures |b| <= |a| ==> b <= a
  {
  }

  lemma StepPurity(owns: Owns, e: Entry, p: string, sig: string)
    requires WellFormed(owns) && e in owns && Reducible(owns, e) && Reached(Rewrite(owns, e), p)
    ensures Reached(owns, p) && (Pure(Rewrite(owns, e), p, sig) <==> Pure(owns, p, sig))
  {
    var q, r := Shorter(e.name), Rewrite(owns, e);
    var made := Entry(q, e.sig);
    ShorterIsPrefix(e.name);
    forall f ensures f in r <==> (f in owns && !(q <= f.name)) || f == made { InRewrite(owns, e, f); }
    var g :| g in r && p <= g.name;
    assert p <= q ==> p <= e.name;
    assert q <= p ==> g == made && p == q;
    forall f | f in owns && p <= f.name && q <= f.name ensures p <= q {
      Comparable(p, q, f.name);
    }
    if Pure(r, p, sig) {
      forall f | f in owns && p <= f.name ensures f.sig == sig {
        if q <= f.name { assert made in r; } else { assert f in r; }
      }
    }
  }

  lemma MadeIsProper(start: Owns, owns: Owns, e: Entry)
    requires WellFormed(start) && WellFormed(owns) && Follows(start, owns) && e in owns && Reducible(owns, e)
    requires e.name != ""
    ensures Proper(start, Entry(Shorter(e.name), e.sig))
  {
    var made := Entry(Shorter(e.name), e.sig);
    ShorterIsPrefix(e.name);
    assert Reached(owns, made.name) && Pure(owns, made.name, made.sig);
    assert SamePurity(start, owns, made.name, made.sig) && FromStart(start, e);
    if e in start {
      var n := |Words(e.name)|;
      assert n > 0 && IsFront(start, made, e, n - 1);
    } else {
      var l, k: nat :| IsFront(start, e, l, k);
      FrontFacts(l.name, k);
      assert k > 0;
      assert IsFront(start, made, l, k - 1);
    }
  }

  lemma StepCovers(start: Owns, owns: Owns, e: Entry, l: Entry)
    requires WellFormed(owns) && e in owns && Proper(start, Entry(Shorter(e.name), e.sig))
    requires Settled(start, owns, l)
    ensures Settled(start, Rewrite(owns, e), l)
  {
    var p, r := Shorter(e.name), Rewrite(owns, e);
    var made := Entry(p, e.sig);
    ShorterIsPrefix(e.name);
    forall f ensures f in r <==> (f in owns && !(p <= f.name)) || f == made { InRewrite(owns, e, f); }
    assert Alone(r, made);
    if p <= l.name {
      assert CoveredBy(start, r, made, l.name);
    } else if l !in owns {
      var q :| CoveredBy(start, owns, q, l.name);
      assert q.name <= p ==> q.name <= e.name && e == q;
      assert CoveredBy(start, r, q, l.name);
    }
  }

  /** No sig is the only one. */
  ghost predicate Mixed(owns: Owns) {
    forall sig {:trigger Pure(owns, "", sig)} :: owns != [] ==> !Pure(owns, "", sig)
  }

  lemma SeveralIsMixed(owns: Owns)
    requires |Sigs(owns)| != 1
    ensures Mixed(owns)
  {
    if owns != [] {
      forall sig ensures !Pure(owns, "", sig) {
        var e := owns[0];
        assert e in owns;
        if forall f :: f in owns ==> f.sig == e.sig {
          OnlySig(owns, e);
        } else {
          var f :| f in owns && f.sig != e.sig;
          assert "" <= f.name && "" <= e.name;
        }
      }
    }
  }

  lemma StepFollows(start: Owns, owns: Owns, e: Entry)
    requires WellFormed(start) && WellFormed(owns) && Follows(start, owns) && Mixed(owns)
    requires e in owns && Reducible(owns, e)
    ensures Follows(start, Rewrite(owns, e))
  {
    var r := Rewrite(owns, e);
    assert e.name == "" ==> Pure(owns, "", e.sig);
    MadeIsProper(start, owns, e);
    forall m | m in r ensures FromStart(start, m) {
      InRewrite(owns, e, m);
      assert m in owns ==> FromStart(start, m);
    }
    forall l | l in start ensures Settled(start, r, l) {
      assert Settled(start, owns, l);
      StepCovers(start, owns, e, l);
    }
    forall p, sig ensures SamePurity(start, r, p, sig) {
      assert SamePurity(start, owns, p, sig);
      if Reached(r, p) { StepPurity(owns, e, p, sig); }
    }
  }

  lemma FollowsSame(start: Owns, owns: Owns, sorted: Owns)
    requires Follows(start, owns) && forall e :: e in sorted <==> e in owns
    ensures Follows(start, sorted)
  {
    forall m | m in sorted ensures FromStart(start, m) {}
    forall l | l in start ensures Settled(start, sorted, l) {
      assert Settled(start, owns, l);
      if l !in owns {
        var q :| CoveredBy(start, owns, q, l.name);
        assert CoveredBy(start, sorted, q, l.name);
      }
    }
    forall p, sig ensures SamePurity(start, sorted, p, sig) {
      assert SamePurity(start, owns, p, sig);
      assert Reached(sorted, p) <==> Reached(owns, p);
      assert Pure(sorted, p, sig) <==> Pure(owns, p, sig);
    }
  }

  lemma {:induction false} RunFollows(run: seq<Owns>, n: nat)
    requires IsRun(run) && WellFormed(run[0]) && |Sigs(run[0])| != 1 && n < |run|
    ensures Follows(run[0], run[n])
  {
    if n > 0 {
      RunFollows(run, n - 1);
      RunFacts(run, n - 1);
      assert Steps(run[n - 1], run[n]);
      PassFollows(run[0], run[n - 1], run[n]);
    }
  }

  lemma PassFollows(start: Owns, owns: Owns, owns': Owns)
    requires WellFormed(start) && WellFormed(owns) && Follows(start, owns) && |Sigs(owns)| != 1 && Steps(owns, owns')
    ensures Follows(start, owns')
  {
    var e :| StepsAt(owns, e, owns');
    var sorted :|
      multiset(sorted) == multiset(owns) && e in sorted && Reducible(sorted, e) && owns' == Rewrite(sorted, e);
    SameEntries(sorted, owns);
    FollowsSame(start, owns, sorted);
    SeveralIsMixed(sorted);
    StepFollows(start, sorted, e);
  }

  // ---- and at the end

  /** Already the one word less is used by other sigs as well. */
  ghost predicate Impure(start: Owns, m: Entry) {
    !Pure(start, Shorter(m.name), m.sig)
  }

  /** A list on the way from `start` in which nothing is reducible any more. */
  ghost predicate Ends(start: Owns, owns: Owns) {
    && WellFormed(start) && WellFormed(owns) && Mixed(start)
    && (forall m {:trigger FromStart(start, m)} :: m in owns ==> FromStart(start, m))
    && (forall l {:trigger Settled(start, owns, l)} :: l in start ==> Settled(start, owns, l))
    && (forall m {:trigger Impure(start, m)} :: m in owns ==> Impure(start, m))
  }

  lemma StuckImpure(start: Owns, owns: Owns, m: Entry)
    requires WellFormed(owns) && Follows(start, owns) && m in owns && !Reducible(owns, m)
    ensures Impure(start, m)
  {
    ShorterIsPrefix(m.name);
    assert Reached(owns, Shorter(m.name)) && SamePurity(start, owns, Shorter(m.name), m.sig);
  }

  lemma ShrinksNot(start: Owns, m: Entry, k: nat)
    requires Impure(start, m)
    ensures !ShrinksAt(start, m, k)
  {
    if k < |Words(m.name)| { JoinPrefix(Words(m.name), k, |Words(m.name)| - 1); }
  }

  lemma MadeIfImpure(start: Owns, q: Entry)
    requires WellFormed(start) && Mixed(start) && Proper(start, q) && Impure(start, q)
    ensures MadeOf(start, q)
  {
    var l, k: nat :| IsFront(start, q, l, k);
    FrontFacts(l.name, k);
    assert k > 0;
    assert MadeFrom(start, q, l, k);
  }

  /** What covers a test covers what the test shrinks to. */
  lemma CoversFront(start: Owns, owns: Owns, l: Entry, k: nat, q: Entry)
    requires WellFormed(start) && WellFormed(owns) && Mixed(start) && l in start && ShrinksAt(start, l, k)
    requires CoveredBy(start, owns, q, l.name) && Impure(start, q)
    ensures CoveredBy(start, owns, q, Front(l.name, k)) && q.sig == l.sig
  {
    var p := Front(l.name, k);
    FrontFacts(l.name, k);
    if |q.name| > |p| {
      assert k > 0;
      Overtakes(l.name, k, q.name);
    }
    Comparable(q.name, p, l.name);
  }

  /** Whatever a test shrinks to is covered by an entry of the end, which is made. */
  lemma EndCovers(start: Owns, owns: Owns, l: Entry, k: nat) returns (q: Entry)
    requires Ends(start, owns) && l in start && ShrinksAt(start, l, k)
    ensures CoveredBy(start, owns, q, Front(l.name, k)) && q.sig == l.sig && MadeOf(start, q)
  {
    if l in owns {
      assert Impure(start, l);
      ShrinksNot(start, l, k);
    }
    assert Settled(start, owns, l);
    q :| CoveredBy(start, owns, q, l.name);
    assert Impure(start, q);
    CoversFront(start, owns, l, k, q);
    MadeIfImpure(start, q);
  }

  lemma MadeCovers(start: Owns, owns: Owns, e: Entry) returns (q: Entry)
    requires Ends(start, owns) && MadeOf(start, e)
    ensures CoveredBy(start, owns, q, e.name) && q.sig == e.sig && MadeOf(start, q)
  {
    var l, k: nat :| MadeFrom(start, e, l, k);
    q := EndCovers(start, owns, l, k);
  }

  lemma EndInFinal(start: Owns, owns: Owns, e: Entry)
    requires Ends(start, owns) && e in owns
    ensures Final(start, e)
  {
    assert FromStart(start, e) && Impure(start, e);
    if Proper(start, e) { MadeIfImpure(start, e); } else { NeverShrinks(start, e); }
    forall q | MadeOf(start, q) && q.name <= e.name ensures q.name == e.name { MadeIsOutermost(start, owns, e, q); }
  }

  lemma NeverShrinks(start: Owns, e: Entry)
    requires Impure(start, e)
    ensures !Shrinks(start, e)
  {
    forall k: nat ensures !ShrinksAt(start, e, k) { ShrinksNot(start, e, k); }
  }

  lemma MadeIsOutermost(start: Owns, owns: Owns, e: Entry, q: Entry)
    requires Ends(start, owns) && e in owns && MadeOf(start, q) && q.name <= e.name
    ensures q.name == e.name
  {
    var c := MadeCovers(start, owns, q);
    assert c.name <= e.name;
  }

  lemma FinalInEnd(start: Owns, owns: Owns, e: Entry)
    requires Ends(start, owns) && Final(start, e)
    ensures e in owns
  {
    if MadeOf(start, e) {
      var c := MadeCovers(start, owns, e);
      assert c == e;
    } else if e !in owns {
      assert Settled(start, owns, e);
      var c :| CoveredBy(start, owns, c, e.name);
      assert Impure(start, c);
      MadeIfImpure(start, c);
    }
  }

  lemma RunEnds(run: seq<Owns>)
    requires IsRun(run) && WellFormed(run[0]) && |Sigs(run[0])| != 1 && Stuck(run[|run| - 1])
    ensures Ends(run[0], run[|run| - 1])
  {
    RunFollows(run, |run| - 1);
    RunFacts(run, |run| - 1);
    SeveralIsMixed(run[0]);
    StuckEnds(run[0], run[|run| - 1]);
  }

  lemma StuckEnds(start: Owns, owns: Owns)
    requires WellFormed(start) && WellFormed(owns) && Mixed(start) && Follows(start, owns) && Stuck(owns)
    ensures Ends(start, owns)
  {
    forall m | m in owns ensures Impure(start, m) {
      assert !Reducible(owns, m);
      StuckImpure(start, owns, m);
    }
  }

  /** Where a run can end is determined by where it starts: whatever it picks, it ends with these entries. */
  lemma EndIsFinal(run: seq<Owns>, e: Entry)
    requires IsRun(run) && WellFormed(run[0]) && |Sigs(run[0])| != 1 && Stuck(run[|run| - 1])
    ensures e in run[|run| - 1] <==> Final(run[0], e)
  {
    RunEnds(run);
    if e in run[|run| - 1] { EndInFinal(run[0], run[|run| - 1], e); }
    if Final(run[0], e) { FinalInEnd(run[0], run[|run| - 1], e); }
  }

  /** So the choice of the entry that a pass rewrites, and with it the sorting, makes no difference. */
  lemma PicksDoNotMatter(run: seq<Owns>, run': seq<Owns>, e: Entry)
    requires IsRun(run) && IsRun(run') && run[0] == run'[0] && WellFormed(run[0]) && |Sigs(run[0])| != 1
    requires Stuck(run[|run| - 1]) && Stuck(run'[|run'| - 1])
    ensures e in run[|run| - 1] <==> e in run'[|run'| - 1]
  {
    EndIsFinal(run, e);
    EndIsFinal(run', e);
  }

  lemma CoverLooksUp(start: Owns, owns: Owns, c: Entry, p: string, t: string)
    requires WellFormed(owns) && CoveredBy(start, owns, c, p) && p <= t
    ensures forall h :: LooksUp(owns, t, h) <==> h == c
  {
    forall f | f in owns && f.name <= t ensures |f.name| <= |c.name| {
      Comparable(c.name, f.name, t);
    }
    assert LooksUp(owns, t, c);
    forall h | LooksUp(owns, t, h) ensures h == c { LookupUnique(owns, t, h, c); }
  }

  lemma EndLooksUpAsBefore(start: Owns, owns: Owns, t: string, h: Entry)
    requires Ends(start, owns) && LooksUp(start, t, h)
    requires forall q :: MadeOf(start, q) ==> !(q.name <= t)
    ensures LooksUp(owns, t, h)
  {
    assert Settled(start, owns, h);
    if h !in owns {
      var c :| CoveredBy(start, owns, c, h.name);
      assert Impure(start, c);
      MadeIfImpure(start, c);
    }
    forall f | f in owns && f.name <= t ensures |f.name| <= |h.name| {
      assert FromStart(start, f) && Impure(start, f);
      if f !in start { MadeIfImpure(start, f); }
    }
  }

  /** What the starting list says of a name: nothing that a test of another sig shrinks to covers it. */
  ghost predicate Safe(owns: Owns, t: string, sig: string) {
    forall q :: MadeOf(owns, q) && q.name <= t ==> q.sig == sig
  }

  /** A name that something made covers finds the sig of that. */
  lemma EndFindsMade(start: Owns, owns: Owns, q: Entry, t: string) returns (c: Entry)
    requires Ends(start, owns) && MadeOf(start, q) && q.name <= t
    ensures c.sig == q.sig && forall h :: LooksUp(owns, t, h) <==> h == c
  {
    c := MadeCovers(start, owns, q);
    CoverLooksUp(start, owns, c, q.name, t);
  }

  lemma EndKeepsSafe(start: Owns, owns: Owns, t: string, sig: string)
    requires Ends(start, owns) && Finds(start, t, sig)
    ensures Finds(owns, t, sig) <==> Safe(start, t, sig)
  {
    if exists q :: MadeOf(start, q) && q.name <= t {
      var q :| MadeOf(start, q) && q.name <= t;
      var c := EndFindsMade(start, owns, q, t);
      assert LooksUp(owns, t, c);
      forall q' | MadeOf(start, q') && q'.name <= t ensures q'.sig == q.sig {
        var c' := EndFindsMade(start, owns, q', t);
        assert LooksUp(owns, t, c');
      }
    } else {
      var h :| LooksUp(start, t, h) && h.sig == sig;
      EndLooksUpAsBefore(start, owns, t, h);
    }
  }

  /** Whether a name, listed or not, has its sig when the compression is done can be told from the list it starts from,
      whatever it picks. */
  lemma EndKeepsIff(run: seq<Owns>, t: string, sig: string)
    requires IsRun(run) && WellFormed(run[0]) && |Sigs(run[0])| != 1 && Stuck(run[|run| - 1])
    requires Finds(run[0], t, sig)
    ensures Finds(run[|run| - 1], t, sig) <==> Safe(run[0], t, sig)
  {
    RunEnds(run);
    EndKeepsSafe(run[0], run[|run| - 1], t, sig);
  }

  // ------------------------------------------------------------------ the program

  /** A row of test_owners.csv. */
  datatype Assignment = Assignment(owner: string, random: bool, sig: string)

  predicate Contains(s: string, t: string) {
    t <= s || (s != "" && Contains(s[1..], t))
  }

  lemma {:induction false} ContainsMeans(s: string, t: string)
    ensures Contains(s, t) <==> exists i :: 0 <= i <= |s| && t <= s[i..]
  {
    assert s[0..] == s;
    if !(t <= s) && s != "" {
      ContainsMeans(s[1..], t);
      if Contains(s[1..], t) {
        var i :| 0 <= i <= |s[1..]| && t <= s[1..][i..];
        assert s[1..][i..] == s[i + 1..];
      }
      if exists i :: 0 <= i <= |s| && t <= s[i..] {
        var i :| 0 <= i <= |s| && t <= s[i..];
        assert s[1..][i - 1..] == s[i..];
      }
    }
  }

  predicate Eligible(test: string, a: Assignment) {
    !Contains(test, "k8s.io/") && a.sig != ""
  }

  ghost predicate Lists(owners: map<string, Assignment>, owns: Owns) {
    forall e :: e in owns <==> e.name in owners && Eligible(e.name, owners[e.name]) && e.sig == owners[e.name].sig
  }

  function OwnerSigs(owners: map<string, Assignment>): set<string> {
    set t | t in owners && Eligible(t, owners[t]) :: owners[t].sig
  }

  method Collect(owners: map<string, Assignment>) returns (owns: Owns)
    ensures Lists(owners, owns)
    ensures forall e :: e in owns <==>
              e.name in owners && e.sig == owners[e.name].sig && e.sig != "" &&
              !exists i :: 0 <= i <= |e.name| && "k8s.io/" <= e.name[i..]
  {
    forall test { ContainsMeans(test, "k8s.io/"); }
    owns := [];
    var tests := owners.Keys;
    while tests != {}
      invariant tests <= owners.Keys
      invariant forall e :: e in owns <==>
                  e.name in owners && e.name !in tests && Eligible(e.name, owners[e.name]) &&
                  e.sig == owners[e.name].sig
      decreases tests
    {
      var test :| test in tests;
      tests := tests - {test};
      if Contains(test, "k8s.io/") || owners[test].sig == "" { continue; }
      owns := owns + [Entry(test, owners[test].sig)];
    }
  }

  /** Python's order on two-element lists. */
  predicate Leq(e: Entry, f: Entry) {
    if e.name == f.name then LexLeq(e.sig, f.sig) else LexLeq(e.name, f.name)
  }

  lemma LeqTotalOrder()
    ensures TotalOrder(Leq)
  {
    forall e, f ensures Leq(e, f) || Leq(f, e) {
      LexTotal(e.name, f.name);
      LexTotal(e.sig, f.sig);
    }
    forall e, f, g | Leq(e, f) && Leq(f, g) ensures Leq(e, g) { LeqTransitive(e, f, g); }
  }

  lemma LeqTransitive(e: Entry, f: Entry, g: Entry)
    requires Leq(e, f) && Leq(f, g)
    ensures Leq(e, g)
  {
    LexTotal(e.name, f.name);
    if e.name == f.name == g.name {
      LexTransitive(e.sig, f.sig, g.sig);
    } else if e.name != f.name && f.name != g.name {
      LexTransitive(e.name, f.name, g.name);
    }
  }

  ghost predicate Sorted(owns: Owns) {
    forall i, j :: 0 <= i < j < |owns| ==> Leq(owns[i], owns[j])
  }

  /** `owns.sort()` */
  method Sort(owns: Owns) returns (r: Owns)
    ensures Sorted(r) && multiset(r) == multiset(owns)
  {
    LeqTotalOrder();
    r := InsertionSort(owns, Leq);
  }

  /** `matches` for one candidate: is anything matched, and do all matched entries have the sig? */
  method Matches(owns: Owns, prefix: string, sig: string) returns (some: bool, all: bool)
    ensures some <==> exists f :: f in owns && prefix <= f.name
    ensures all <==> forall f :: f in owns && prefix <= f.name ==> f.sig == sig
  {
    some, all := false, true;
    for j := 0 to |owns|
      invariant some <==> exists f :: f in owns[..j] && prefix <= f.name
      invariant all <==> forall f :: f in owns[..j] && prefix <= f.name ==> f.sig == sig
    {
      assert owns[..j + 1] == owns[..j] + [owns[j]];
      if prefix <= owns[j].name {
        some := true;
        if owns[j].sig != sig { all := false; }
      }
    }
    assert owns[..|owns|] == owns;
  }

  ghost predicate NoneReducible(owns: Owns, n: nat)
    requires n <= |owns|
  {
    forall k :: 0 <= k < n ==> !Reducible(owns, owns[k])
  }

  lemma NoneIsStuck(owns: Owns)
    requires NoneReducible(owns, |owns|)
    ensures Stuck(owns)
  {
  }

  /** What the two answers mean: an entry matches its own shortened name, so the second decides. */
  lemma OneMoreNot(owns: Owns, i: nat, some: bool, all: bool)
    requires WellFormed(owns) && i < |owns| && NoneReducible(owns, i)
    requires some <==> exists f :: f in owns && Shorter(owns[i].name) <= f.name
    requires all <==> forall f :: f in owns && Shorter(owns[i].name) <= f.name ==> f.sig == owns[i].sig
    ensures some && (all <==> Reducible(owns, owns[i])) && (!all ==> NoneReducible(owns, i + 1))
  {
    assert owns[i] in owns;
    ShorterIsPrefix(owns[i].name);
  }

  /** The inner `for`: the first reducible entry, if any. */
  method FindReducible(owns: Owns) returns (found: bool, e: Entry)
    requires WellFormed(owns)
    ensures found ==> e in owns && Reducible(owns, e)
    ensures !found ==> Stuck(owns)
  {
    for i := 0 to |owns|
      invariant NoneReducible(owns, i)
    {
      e := owns[i];
      var some, all := Matches(owns, Shorter(e.name), e.sig);
      OneMoreNot(owns, i, some, all);
      if some && all { return true, e; }
    }
    NoneIsStuck(owns);
    found, e := false, Entry("", "");
  }

  lemma {:induction false} WithoutSnoc(owns: Owns, e: Entry, prefix: string)
    ensures Without(owns + [e], prefix) == Without(owns, prefix) + if prefix <= e.name then [] else [e]
  {
    if owns == [] {
      assert owns + [e] == [e];
    } else {
      WithoutSnoc(owns[1..], e, prefix);
      assert (owns + [e])[0] == owns[0] && (owns + [e])[1..] == owns[1..] + [e];
      var kept, last := Without(owns[1..], prefix), if prefix <= e.name then [] else [e];
      Associative(if prefix <= owns[0].name then [] else [owns[0]], kept, last);
    }
  }

  method Filter(owns: Owns, prefix: string) returns (r: Owns)
    ensures r == Without(owns, prefix)
  {
    r := [];
    for n := 0 to |owns|
      invariant r == Without(owns[..n], prefix)
    {
      assert owns[..n + 1] == owns[..n] + [owns[n]];
      WithoutSnoc(owns[..n], owns[n], prefix);
      if !(prefix <= owns[n].name) { r := r + [owns[n]]; }
    }
    assert owns[..|owns|] == owns;
  }

  lemma RunAtGrows(run: seq<Owns>, picks: seq<Entry>, e: Entry, owns: Owns)
    requires IsRunAt(run, picks) && StepsAt(run[|picks|], e, owns)
    ensures IsRunAt(run + [owns], picks + [e])
  {
    var run', picks' := run + [owns], picks + [e];
    forall i, j | 0 <= i && j == i + 1 < |run'| ensures StepsAt(run'[i], picks'[i], run'[j]) {
      if j < |run| { assert run'[i] == run[i] && picks'[i] == picks[i] && run'[j] == run[j]; }
    }
  }

  lemma SortedStepsAt(owns: Owns, sorted: Owns, e: Entry)
    requires multiset(sorted) == multiset(owns) && e in sorted && Reducible(sorted, e)
    ensures StepsAt(owns, e, Rewrite(sorted, e))
  {
  }

  lemma EndMeans(run: seq<Owns>, picks: seq<Entry>, r: Owns)
    requires IsRunAt(run, picks) && WellFormed(run[0]) && multiset(r) == multiset(run[|picks|])
    ensures WellFormed(r) && Sigs(r) == Sigs(run[0])
    ensures forall t :: t in run[0] ==> Means(r, t.name, t.sig)
  {
    RunAtIsRun(run, picks);
    RunFacts(run, |picks|);
    SameEntries(r, run[|picks|]);
    forall t | t in run[0] ensures Means(r, t.name, t.sig) {
      RunMeans(run, |picks|, t);
      MeansSame(run[|picks|], r, t);
    }
  }

  lemma EndHolds(run: seq<Owns>, picks: seq<Entry>, r: Owns)
    requires IsRunAt(run, picks) && WellFormed(run[0]) && |Sigs(run[0])| != 1
    requires multiset(r) == multiset(run[|picks|]) && Stuck(r)
    ensures forall e :: e in r <==> Final(run[0], e)
  {
    RunAtIsRun(run, picks);
    SameEntries(r, run[|picks|]);
    forall e | e in run[|picks|] ensures !Reducible(run[|picks|], e) {
      assert !Reducible(r, e);
    }
    forall e ensures e in r <==> Final(run[0], e) { EndIsFinal(run, e); }
  }

  /** The `while True` loop makes a run, and ends where nothing is reducible.  With exactly one sig it would never
      return (StopsIffNotOneSig). */
  method Compress(owns: Owns) returns (r: Owns, ghost run: seq<Owns>, ghost picks: seq<Entry>)
    requires WellFormed(owns) && |Sigs(owns)| != 1
    ensures IsRunAt(run, picks) && run[0] == owns && multiset(r) == multiset(run[|picks|])
    ensures WellFormed(r) && Sorted(r) && Stuck(r) && Sigs(r) == Sigs(owns)
    ensures forall t :: t in owns ==> Means(r, t.name, t.sig)
    ensures forall e :: e in r <==> Final(owns, e)
  {
    r, run, picks := owns, [owns], [];
    while true
      invariant IsRunAt(run, picks) && run[0] == owns && r == run[|picks|]
      invariant WellFormed(r) && Sigs(r) == Sigs(owns)
      decreases Total(r)
    {
      ghost var before := r;
      r := Sort(r);
      SameEntries(r, before);
      var found, e := FindReducible(r);
      if !found {
        EndMeans(run, picks, r);
        EndHolds(run, picks, r);
        return;
      }
      SortedStepsAt(before, r, e);
      StepFacts(before, Rewrite(r, e));
      RunAtGrows(run, picks, e, Rewrite(r, e));
      var maybePrefix := Shorter(e.name);
      r := Filter(r, maybePrefix);
      r := r + [Entry(maybePrefix, e.sig)];
      run, picks := run + [r], picks + [e];
    }
  }

  lemma MeansSame(a: Owns, b: Owns, t: Entry)
    requires (forall e :: e in a <==> e in b) && Means(a, t.name, t.sig)
    ensures Means(b, t.name, t.sig)
  {
    var h :| LooksUp(a, t.name, h) && h.sig == t.sig && (h.name == t.name || Alone(a, h));
    assert LooksUp(b, t.name, h) && (h.name == t.name || Alone(b, h));
  }

  type Grouped = map<string, seq<string>>

  ghost predicate Holds(sigs: Grouped, e: Entry) {
    e.sig in sigs && e.name in sigs[e.sig]
  }

  /** `sigs.setdefault(sig, []).append(name)` for every entry. */
  method Group(owns: Owns) returns (sigs: Grouped)
    ensures forall e :: Holds(sigs, e) <==> e in owns
    ensures sigs.Keys == Sigs(owns)
  {
    sigs := map[];
    for n := 0 to |owns|
      invariant forall e :: Holds(sigs, e) <==> e in owns[..n]
      invariant sigs.Keys == Sigs(owns[..n])
    {
      var e := owns[n];
      var known := if e.sig in sigs then sigs[e.sig] else [];
      assert owns[..n + 1] == owns[..n] + [e];
      sigs := sigs[e.sig := known + [e.name]];
    }
    assert owns[..|owns|] == owns;
  }

  /** The longest listed prefix of `test` is `e.name`, and it is listed under `e.sig`. */
  ghost predicate FindsIn(sigs: Grouped, test: string, e: Entry) {
    Holds(sigs, e) && e.name <= test && forall f :: Holds(sigs, f) && f.name <= test ==> |f.name| <= |e.name|
  }

  lemma GroupedMeans(sigs: Grouped, owns: Owns, test: string, sig: string)
    requires (forall e :: Holds(sigs, e) <==> e in owns) && Means(owns, test, sig)
    ensures FindsSig(sigs, test, sig)
  {
    var e :| LooksUp(owns, test, e) && e.sig == sig;
    assert FindsIn(sigs, test, e);
  }

  lemma CollectedSigs(owners: map<string, Assignment>, owns: Owns)
    requires Lists(owners, owns) && forall t :: t in owners ==> Normalized(t)
    ensures Sigs(owns) == OwnerSigs(owners) && WellFormed(owns)
  {
    forall t | t in owners && Eligible(t, owners[t]) ensures owners[t].sig in Sigs(owns) {
      assert Entry(t, owners[t].sig) in owns;
    }
  }

  /** Some listed test of another sig begins with the shortened name. */
  ghost predicate Clashes(sigs: Grouped, e: Entry) {
    exists f :: Holds(sigs, f) && Shorter(e.name) <= f.name && f.sig != e.sig
  }

  lemma StuckClashes(sigs: Grouped, owns: Owns, e: Entry)
    requires (forall f :: Holds(sigs, f) <==> f in owns) && Stuck(owns) && Holds(sigs, e)
    ensures Clashes(sigs, e)
  {
    assert !Reducible(owns, e);
    var f :| f in owns && Shorter(e.name) <= f.name && f.sig != e.sig;
    assert Holds(sigs, f);
  }

  /** Every eligible test finds its own sig. */
  ghost predicate Covers(sigs: Grouped, owners: map<string, Assignment>) {
    forall t :: t in owners && Eligible(t, owners[t]) ==> FindsSig(sigs, t, owners[t].sig)
  }

  ghost predicate FindsSig(sigs: Grouped, test: string, sig: string) {
    exists e :: FindsIn(sigs, test, e) && e.sig == sig
  }

  lemma Finished(owners: map<string, Assignment>, owns: Owns, r: Owns, sigs: Grouped)
    requires Lists(owners, owns) && (forall t :: t in owns ==> Means(r, t.name, t.sig))
    requires Stuck(r) && forall e :: Holds(sigs, e) <==> e in r
    ensures Covers(sigs, owners)
    ensures forall e :: Holds(sigs, e) ==> Clashes(sigs, e)
  {
    forall t | t in owners && Eligible(t, owners[t]) ensures FindsSig(sigs, t, owners[t].sig) {
      var e := Entry(t, owners[t].sig);
      assert e in owns && Means(r, e.name, e.sig);
      GroupedMeans(sigs, r, t, e.sig);
    }
    forall e | Holds(sigs, e) ensures Clashes(sigs, e) { StuckClashes(sigs, r, e); }
  }

  /** sig_prefixes without the JSON encoding: every listed test finds its own sig, no sig is lost, no name is listed
      twice, no prefix could be shortened further without covering a test of another sig, and what is listed is
      determined by the tests alone. */
  method Run(owners: map<string, Assignment>) returns (sigs: Grouped, ghost tests: Owns)
    requires forall t :: t in owners ==> Normalized(t)
    requires |OwnerSigs(owners)| != 1
    ensures Covers(sigs, owners)
    ensures sigs.Keys == OwnerSigs(owners)
    ensures forall e, f :: Holds(sigs, e) && Holds(sigs, f) && e.name == f.name ==> e == f
    ensures forall e :: Holds(sigs, e) ==> Clashes(sigs, e)
    ensures Lists(owners, tests) && forall e :: Holds(sigs, e) <==> Final(tests, e)
  {
    var owns := Collect(owners);
    tests := owns;
    CollectedSigs(owners, owns);
    var r, run, picks := Compress(owns);
    sigs := Group(r);
    Finished(owners, owns, r, sigs);
  }
}
