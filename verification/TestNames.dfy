/** Names as words, and what `normalize` makes of them (hack/update_owners.py). */
module TestNames {
  import opened Options
  import opened Sequences

  // ------------------------------------------------------------------ words

  /** The white space of Python's `split`, `strip` and `\s` on byte strings. */
  predicate Space(c: char) {
    c == ' ' || 9 <= c as int <= 13
  }

  /** Length of the leading run without white space. */
  function WordEnd(s: string): (n: nat)
    ensures n <= |s| && (n < |s| ==> Space(s[n]))
    ensures forall i :: 0 <= i < n ==> !Space(s[i])
  {
    if s == "" || Space(s[0]) then 0 else 1 + WordEnd(s[1..])
  }

  /** `s.split()` */
  function Words(s: string): seq<string>
    decreases |s|
  {
    if s == "" then []
    else if Space(s[0]) then Words(s[1..])
    else [s[..WordEnd(s)]] + Words(s[WordEnd(s)..])
  }

  /** `' '.join(ws)` */
  function Join(ws: seq<string>): string {
    if ws == [] then ""
    else if |ws| == 1 then ws[0]
    else Join(ws[..|ws| - 1]) + " " + ws[|ws| - 1]
  }

  predicate Clean(w: string) {
    w != "" && forall i :: 0 <= i < |w| ==> !Space(w[i])
  }

  lemma {:induction false} WordsClean(s: string)
    ensures forall i :: 0 <= i < |Words(s)| ==> Clean(Words(s)[i])
    decreases |s|
  {
    if s != "" {
      if Space(s[0]) { WordsClean(s[1..]); } else { WordsClean(s[WordEnd(s)..]); }
    }
  }

  lemma WordOf(w: string)
    requires Clean(w)
    ensures Words(w) == [w]
  {
    assert WordEnd(w) == |w|;
    assert w[..|w|] == w && w[|w|..] == "";
  }

  lemma {:induction false} WordEndAppend(a: string, rest: string)
    requires rest != "" && Space(rest[0])
    ensures WordEnd(a + rest) == WordEnd(a)
  {
    if a == "" {
      assert a + rest == rest;
    } else if !Space(a[0]) {
      assert (a + rest)[1..] == a[1..] + rest;
      WordEndAppend(a[1..], rest);
    }
  }

  lemma {:induction false} WordsAppend(a: string, w: string)
    requires Clean(w)
    ensures Words(a + " " + w) == Words(a) + [w]
    decreases |a|
  {
    var whole := a + " " + w;
    if a == "" {
      assert whole[1..] == w;
      WordOf(w);
    } else if Space(a[0]) {
      assert whole[1..] == a[1..] + " " + w;
      WordsAppend(a[1..], w);
    } else {
      var n := WordEnd(a);
      assert WordEnd(whole) == n by {
        assert whole == a + (" " + w);
        WordEndAppend(a, " " + w);
      }
      assert whole[..n] == a[..n];
      assert whole[n..] == a[n..] + " " + w;
      WordsAppend(a[n..], w);
      assert Words(whole) == [a[..n]] + (Words(a[n..]) + [w]);
    }
  }

  lemma {:induction false} WordsOfJoin(ws: seq<string>)
    requires forall i :: 0 <= i < |ws| ==> Clean(ws[i])
    ensures Words(Join(ws)) == ws
  {
    if |ws| == 1 {
      WordOf(ws[0]);
    } else if |ws| > 1 {
      var init := ws[..|ws| - 1];
      WordsOfJoin(init);
      WordsAppend(Join(init), ws[|ws| - 1]);
      assert ws == init + [ws[|ws| - 1]];
    }
  }

  /** Words separated by single spaces, which is what `normalize` leaves of every test name. */
  predicate Normalized(s: string) {
    s == Join(Words(s))
  }

  /** `' '.join(name.split()[:-1])` */
  function Shorter(name: string): string {
    var ws := Words(name);
    if ws == [] then "" else Join(ws[..|ws| - 1])
  }

  lemma ShorterIsPrefix(name: string)
    requires Normalized(name)
    ensures Normalized(Shorter(name)) && Shorter(name) <= name
    ensures name != "" ==> |Shorter(name)| < |name|
  {
    var ws := Words(name);
    WordsClean(name);
    if ws != [] {
      WordsOfJoin(ws[..|ws| - 1]);
      if |ws| > 1 {
        assert name == Shorter(name) + (" " + ws[|ws| - 1]);
      }
    }
  }

  // ------------------------------------------------------------------ the first words of a name

  /** The first `k` words. */
  function Front(name: string, k: nat): string
    requires k <= |Words(name)|
  {
    Join(Words(name)[..k])
  }

  lemma {:induction false} JoinPrefix(ws: seq<string>, i: nat, j: nat)
    requires i <= j <= |ws|
    ensures Join(ws[..i]) <= Join(ws[..j])
  {
    if i < j {
      JoinPrefix(ws, i, j - 1);
      assert ws[..j][..j - 1] == ws[..j - 1];
    }
  }

  lemma FrontFacts(name: string, k: nat)
    requires Normalized(name) && k <= |Words(name)|
    ensures Words(Front(name, k)) == Words(name)[..k] && Normalized(Front(name, k)) && Front(name, k) <= name
    ensures k > 0 ==> Shorter(Front(name, k)) == Front(name, k - 1)
  {
    var ws := Words(name);
    WordsClean(name);
    WordsOfJoin(ws[..k]);
    JoinPrefix(ws, k, |ws|);
    assert ws[..|ws|] == ws;
    if k > 0 { assert ws[..k][..k - 1] == ws[..k - 1]; }
  }

  lemma {:induction false} JoinSplit(ws: seq<string>, k: nat)
    requires 0 < k < |ws|
    ensures Join(ws) == Join(ws[..k]) + " " + Join(ws[k..])
  {
    var last := |ws| - 1;
    if k == last {
      assert ws[k..] == [ws[last]];
    } else {
      JoinSplit(ws[..last], k);
      assert ws[..last][..k] == ws[..k] && ws[..last][k..] == ws[k..last];
      assert ws[k..][..|ws| - k - 1] == ws[k..last];
      var front, mid := Join(ws[..k]), Join(ws[k..last]);
      Associative(front + " ", mid, " ");
      Associative(front + " ", mid + " ", ws[last]);
    }
  }

  lemma {:induction false} WordsConcat(a: string, b: string)
    ensures Words(a + " " + b) == Words(a) + Words(b)
    decreases |a|
  {
    var whole := a + " " + b;
    if a == "" {
      assert whole[1..] == b;
    } else if Space(a[0]) {
      assert whole[1..] == a[1..] + " " + b;
      WordsConcat(a[1..], b);
    } else {
      var n := WordEnd(a);
      assert WordEnd(whole) == n by {
        assert whole == a + (" " + b);
        WordEndAppend(a, " " + b);
      }
      assert whole[..n] == a[..n];
      assert whole[n..] == a[n..] + " " + b;
      WordsConcat(a[n..], b);
      Associative([a[..n]], Words(a[n..]), Words(b));
    }
  }

  /** Of two normalized names, the one that goes on after a space has the words of the other and more. */
  lemma GoesOn(p: string, s: string)
    requires Normalized(p) && Normalized(p + " " + s)
    ensures var q := p + " " + s; |Words(p)| < |Words(q)| && Front(q, |Words(p)|) == p
  {
    var q := p + " " + s;
    WordsConcat(p, s);
    assert Words(s) == [] ==> Words(q) == Words(p);
    assert Words(q)[..|Words(p)|] == Words(p);
  }

  lemma SpaceFollows(name: string, k: nat, q: string)
    requires Normalized(name) && 0 < k < |Words(name)| && q <= name && |q| > |Front(name, k)|
    ensures q == Front(name, k) + " " + q[|Front(name, k)| + 1..]
  {
    var p, rest := Front(name, k), Join(Words(name)[k..]);
    JoinSplit(Words(name), k);
    assert name == p + " " + rest;
    assert name[|p|] == ' ' && p <= name;
  }

  /** A normalized prefix of a name that goes beyond the first `k` words has these among its own, and more. */
  lemma Overtakes(name: string, k: nat, q: string)
    requires Normalized(name) && Normalized(q) && 0 < k < |Words(name)|
    requires q <= name && |q| > |Front(name, k)|
    ensures Front(name, k) <= Shorter(q)
  {
    var p := Front(name, k);
    FrontFacts(name, k);
    SpaceFollows(name, k, q);
    GoesOn(p, q[|p| + 1..]);
    JoinPrefix(Words(q), |Words(p)|, |Words(q)| - 1);
  }

  // ------------------------------------------------------------------ normalize

  /** `s.lstrip()` */
  function LStrip(s: string): (r: string)
    ensures |r| <= |s| && (r != "" ==> !Space(r[0]))
  {
    if s != "" && Space(s[0]) then LStrip(s[1..]) else s
  }

  function RStrip(s: string): (r: string)
    ensures r <= s && (r != "" ==> !Space(r[|r| - 1]))
  {
    if s != "" && Space(s[|s| - 1]) then RStrip(s[..|s| - 1]) else s
  }

  /** `re.sub(r'\s+', ' ', s)` */
  function Collapse(s: string): string
    decreases |s|
  {
    if s == "" then ""
    else if Space(s[0]) then " " + Collapse(LStrip(s[1..]))
    else [s[0]] + Collapse(s[1..])
  }

  /** One past the first `c` at or after `i` on the same line. */
  function CloseAt(s: string, c: char, i: nat): (n: Option<nat>)
    requires i <= |s|
    ensures n.Some? ==> i < n.value <= |s| && s[n.value - 1] == c && forall k :: i <= k < n.value - 1 ==> s[k] != c
    ensures n.Some? && c != '\n' ==> forall k :: i <= k < n.value ==> s[k] != '\n'
    decreases |s| - i
  {
    if i == |s| || s[i] == '\n' then None else if s[i] == c then Some(i + 1) else CloseAt(s, c, i + 1)
  }

  /** The length of the tag that the string begins with, if it does: a match of `\[.*?\]|\{.*?\}`. */
  function Tag(s: string): Option<nat> {
    if s == "" then None
    else if s[0] == '[' then CloseAt(s, ']', 1)
    else if s[0] == '{' then CloseAt(s, '}', 1)
    else None
  }

  /** `re.sub(r'\[.*?\]|\{.*?\}', '', s)` */
  function Untagged(s: string): string
    decreases |s|
  {
    if s == "" then ""
    else if Tag(s).Some? then Untagged(s[Tag(s).value..])
    else [s[0]] + Untagged(s[1..])
  }

  /** No `c` before the end of the first line. */
  predicate Unclosed(s: string, c: char) {
    CloseAt(s, c, 0) == None
  }

  lemma {:induction false} CloseShift(s: string, c: char, i: nat, j: nat)
    requires i <= j <= |s|
    ensures CloseAt(s[i..], c, j - i).Some? <==> CloseAt(s, c, j).Some?
    decreases |s| - j
  {
    if j < |s| {
      CloseShift(s, c, i, j + 1);
      assert s[i..][j - i] == s[j];
    }
  }

  lemma {:induction false} UnclosedDrop(s: string, c: char, n: nat)
    requires Unclosed(s, c) && n <= |s| && forall k :: 0 <= k < n ==> s[k] != '\n'
    ensures Unclosed(s[n..], c)
  {
    if n == 0 {
      assert s[0..] == s;
    } else {
      assert CloseAt(s, c, 1) == None;
      CloseShift(s, c, 1, 1);
      UnclosedDrop(s[1..], c, n - 1);
      assert s[1..][n - 1..] == s[n..];
    }
  }

  lemma {:induction false} UnclosedStays(s: string, c: char)
    requires Unclosed(s, c) && c != '\n'
    ensures Unclosed(Untagged(s), c)
    decreases |s|
  {
    if s == "" {
    } else if Tag(s).Some? {
      UnclosedDrop(s, c, Tag(s).value);
      UnclosedStays(s[Tag(s).value..], c);
    } else if s[0] != '\n' {
      UnclosedDrop(s, c, 1);
      UnclosedStays(s[1..], c);
      CloseShift(Untagged(s), c, 1, 1);
      assert Untagged(s)[1..] == Untagged(s[1..]);
    }
  }

  lemma {:induction false} UntaggedHead(s: string)
    requires s != "" && Tag(s) == None
    ensures Tag(Untagged(s)) == None
  {
    if s[0] == '[' || s[0] == '{' {
      var c := if s[0] == '[' then ']' else '}';
      CloseShift(s, c, 1, 1);
      UnclosedStays(s[1..], c);
      CloseShift(Untagged(s), c, 1, 1);
      assert Untagged(s)[1..] == Untagged(s[1..]);
    }
  }

  /** No tag is left, not even one made by the removal of others: removing tags once is enough. */
  lemma {:induction false} UntaggedTwice(s: string)
    ensures Untagged(Untagged(s)) == Untagged(s)
    decreases |s|
  {
    if s == "" {
    } else if Tag(s).Some? {
      UntaggedTwice(s[Tag(s).value..]);
    } else {
      UntaggedHead(s);
      UntaggedTwice(s[1..]);
      assert Untagged(s)[1..] == Untagged(s[1..]);
    }
  }

  // ---- tags, said of the characters

  /** From here to there on one line, from an opening bracket to a closing one of its kind. */
  predicate Brackets(s: string, i: nat, j: nat) {
    && i < j < |s| && ((s[i] == '[' && s[j] == ']') || (s[i] == '{' && s[j] == '}'))
    && forall k :: i < k < j ==> s[k] != '\n'
  }

  ghost predicate TagBegins(s: string, i: nat) {
    exists j: nat :: Brackets(s, i, j)
  }

  lemma {:induction false} CloseFinds(s: string, c: char, i: nat, j: nat)
    requires i <= j < |s| && s[j] == c && c != '\n' && forall k :: i <= k < j ==> s[k] != '\n'
    ensures CloseAt(s, c, i).Some? && CloseAt(s, c, i).value <= j + 1
    decreases j - i
  {
    if i < j { CloseFinds(s, c, i + 1, j); }
  }

  lemma TagMeans(s: string)
    ensures Tag(s).Some? <==> TagBegins(s, 0)
  {
    if Tag(s).Some? {
      assert Brackets(s, 0, Tag(s).value - 1);
    }
    if TagBegins(s, 0) {
      var j: nat :| Brackets(s, 0, j);
      CloseFinds(s, s[j], 1, j);
    }
  }

  lemma TagShift(s: string, i: nat)
    requires i <= |s|
    ensures TagBegins(s, i) <==> TagBegins(s[i..], 0)
  {
    if TagBegins(s, i) {
      var j: nat :| Brackets(s, i, j);
      assert Brackets(s[i..], 0, j - i);
    }
    if TagBegins(s[i..], 0) {
      var j: nat :| Brackets(s[i..], 0, j);
      forall k | i < k < i + j ensures s[k] != '\n' { assert s[k] == s[i..][k - i]; }
      assert Brackets(s, i, i + j);
    }
  }

  lemma {:induction false} TaglessAt(s: string, i: nat)
    requires i <= |Untagged(s)|
    ensures Tag(Untagged(s)[i..]) == None
    decreases |s|
  {
    if s == "" {
    } else if Tag(s).Some? {
      TaglessAt(s[Tag(s).value..], i);
    } else if i == 0 {
      UntaggedHead(s);
      assert Untagged(s)[0..] == Untagged(s);
    } else {
      TaglessAt(s[1..], i - 1);
      assert Untagged(s)[i..] == Untagged(s[1..])[i - 1..];
    }
  }

  /** At no position of what is left does a tag begin. */
  lemma NoTagLeft(s: string, i: nat)
    ensures !TagBegins(Untagged(s), i)
  {
    if i <= |Untagged(s)| {
      TaglessAt(s, i);
      TagShift(Untagged(s), i);
      TagMeans(Untagged(s)[i..]);
    }
  }

  /** Exactly the strings without a tag are left as they are. */
  lemma {:induction false} UntaggedIff(s: string)
    ensures Untagged(s) == s <==> forall i: nat :: !TagBegins(s, i)
  {
    if Untagged(s) == s {
      forall i: nat ensures !TagBegins(s, i) { NoTagLeft(s, i); }
    } else {
      TagMeans(s);
      if Tag(s) == None {
        UntaggedIff(s[1..]);
        var i: nat :| TagBegins(s[1..], i);
        BeginsLater(s, i);
      }
    }
  }

  lemma BeginsLater(s: string, i: nat)
    requires s != "" && TagBegins(s[1..], i)
    ensures TagBegins(s, i + 1)
  {
    var j: nat :| Brackets(s[1..], i, j);
    forall k | i + 1 < k < j + 1 ensures s[k] != '\n' { assert s[k] == s[1..][k - 1]; }
    assert Brackets(s, i + 1, j + 1);
  }

  /** A tag: brackets that close at the first closing one. */
  predicate IsTag(t: string) {
    |t| > 0 && Brackets(t, 0, |t| - 1) && forall k :: 0 < k < |t| - 1 ==> t[k] != t[|t| - 1]
  }

  /** The first tag is cut out, and what precedes it stays. */
  lemma {:induction false} TagIsCut(before: string, t: string, after: string)
    requires IsTag(t) && '[' !in before && '{' !in before
    ensures Untagged(before + t + after) == before + Untagged(after)
  {
    var s := before + t + after;
    if before == "" {
      assert s == t + after;
      CloseFinds(s, t[|t| - 1], 1, |t| - 1);
      assert Tag(s) == Some(|t|);
      assert s[|t|..] == after;
    } else {
      assert s[0] == before[0] && s[1..] == before[1..] + t + after;
      TagIsCut(before[1..], t, after);
    }
  }

  /** `normalize` */
  function Normalize(s: string): string {
    RStrip(LStrip(Collapse(Untagged(s))))
  }

  /** White space only as single ' ' characters, each followed by something else (or by the end). */
  ghost predicate Single(s: string) {
    forall i :: 0 <= i < |s| && Space(s[i]) ==> s[i] == ' ' && (i + 1 < |s| ==> !Space(s[i + 1]))
  }

  lemma {:induction false} CollapseSingle(s: string)
    ensures Single(Collapse(s))
    ensures s != "" && !Space(s[0]) ==> Collapse(s) != "" && !Space(Collapse(s)[0])
    decreases |s|
  {
    if s != "" {
      if Space(s[0]) { CollapseSingle(LStrip(s[1..])); } else { CollapseSingle(s[1..]); }
    }
  }

  lemma {:induction false} StripSingle(s: string)
    requires Single(s)
    ensures Single(LStrip(s))
  {
    if s != "" && Space(s[0]) {
      assert Single(s[1..]);
      StripSingle(s[1..]);
    }
  }

  /** Words joined from the front. */
  lemma {:induction false} JoinFront(w: string, ws: seq<string>)
    ensures Join([w] + ws) == if ws == [] then w else w + " " + Join(ws)
  {
    if ws != [] {
      var last := |ws| - 1;
      JoinFront(w, ws[..last]);
      assert ([w] + ws)[..last + 1] == [w] + ws[..last];
      if last > 0 {
        var front := Join(ws[..last]);
        Associative(w + " ", front, " ");
        Associative(w + " ", front + " ", ws[last]);
      }
    }
  }

  /** A trimmed string with single spaces is one word, or a word, a space and a shorter such string. */
  ghost predicate Trimmed(s: string) {
    Single(s) && (s != "" ==> !Space(s[0]) && !Space(s[|s| - 1]))
  }

  lemma TrimmedSplits(s: string) returns (w: string, rest: string)
    requires Trimmed(s) && s != ""
    ensures Clean(w) && |rest| < |s| && Trimmed(rest)
    ensures if rest == "" then s == w && Words(s) == [w] else s == w + " " + rest && Words(s) == [w] + Words(rest)
  {
    var n := WordEnd(s);
    w := s[..n];
    if n == |s| {
      rest := "";
      assert s == w;
      WordOf(w);
    } else {
      assert s[n] == ' ' && n + 1 < |s|;
      rest := s[n + 1..];
      TrimmedTail(s, n + 1);
      assert s[n..][1..] == rest;
      assert s == w + " " + rest;
    }
  }

  lemma TrimmedTail(s: string, n: nat)
    requires Trimmed(s) && n < |s| && !Space(s[n])
    ensures Trimmed(s[n..])
  {
    forall i | 0 <= i < |s[n..]| && Space(s[n..][i])
      ensures s[n..][i] == ' ' && (i + 1 < |s[n..]| ==> !Space(s[n..][i + 1]))
    {
      assert s[n..][i] == s[n + i];
    }
  }

  lemma {:induction false} TrimmedIsNormalized(s: string)
    requires Trimmed(s)
    ensures Normalized(s)
    decreases |s|
  {
    if s != "" {
      var w, rest := TrimmedSplits(s);
      TrimmedIsNormalized(rest);
      if rest != "" {
        assert Words(rest) != [];
        JoinFront(w, Words(rest));
      }
    }
  }

  lemma {:induction false} WordsLStrip(s: string)
    ensures Words(LStrip(s)) == Words(s)
  {
    if s != "" && Space(s[0]) { WordsLStrip(s[1..]); }
  }

  lemma {:induction false} WordsTrailing(a: string, c: char)
    requires Space(c)
    ensures Words(a + [c]) == Words(a)
    decreases |a|
  {
    var whole := a + [c];
    if a == "" {
      assert whole[1..] == "";
    } else if Space(a[0]) {
      assert whole[1..] == a[1..] + [c];
      WordsTrailing(a[1..], c);
    } else {
      WordEndAppend(a, [c]);
      var n := WordEnd(a);
      assert whole[..n] == a[..n] && whole[n..] == a[n..] + [c];
      WordsTrailing(a[n..], c);
    }
  }

  lemma {:induction false} WordsRStrip(s: string)
    ensures Words(RStrip(s)) == Words(s)
  {
    if s != "" && Space(s[|s| - 1]) {
      var a := s[..|s| - 1];
      assert s == a + [s[|s| - 1]];
      WordsTrailing(a, s[|s| - 1]);
      WordsRStrip(a);
    }
  }

  lemma {:induction false} CollapseWord(s: string)
    ensures Collapse(s) == s[..WordEnd(s)] + Collapse(s[WordEnd(s)..])
  {
    if s == "" || Space(s[0]) {
      assert s[..0] == "" && s[0..] == s;
    } else {
      var n := WordEnd(s[1..]);
      CollapseWord(s[1..]);
      assert s[..1 + n] == [s[0]] + s[1..][..n] && s[1 + n..] == s[1..][n..];
      Associative([s[0]], s[1..][..n], Collapse(s[1..][n..]));
    }
  }

  lemma {:induction false} WordsCollapse(s: string)
    ensures Words(Collapse(s)) == Words(s)
    decreases |s|
  {
    if s == "" {
    } else if Space(s[0]) {
      var rest := LStrip(s[1..]);
      WordsCollapse(rest);
      WordsLStrip(s[1..]);
      assert Collapse(s)[1..] == Collapse(rest);
    } else {
      var n := WordEnd(s);
      var w, rest := s[..n], Collapse(s[n..]);
      CollapseWord(s);
      WordsCollapse(s[n..]);
      assert Clean(w);
      if s[n..] == "" {
        assert Collapse(s) == w;
        WordOf(w);
      } else {
        WordOf(w);
        WordEndAppend(w, rest);
        assert (w + rest)[..n] == w && (w + rest)[n..] == rest;
      }
    }
  }

  /** Every name that `load_owners` stores is normalized: `normalize` keeps the words outside tags and joins them by
      single spaces. */
  lemma NormalizeJoinsWords(s: string)
    ensures Normalize(s) == Join(Words(Untagged(s))) && Normalized(Normalize(s))
  {
    var u := Untagged(s);
    CollapseSingle(u);
    StripSingle(Collapse(u));
    var r := Normalize(s);
    assert r <= LStrip(Collapse(u));
    assert Single(r);
    TrimmedIsNormalized(r);
    WordsCollapse(u);
    WordsLStrip(Collapse(u));
    WordsRStrip(LStrip(Collapse(u)));
  }
}
