/**
 * Sequence and string helpers shared by the model: first-occurrence
 * de-duplication (`list(dict.fromkeys(xs))`), Python's code-point ordering of
 * strings with `sorted`, `str.join`, `str.split`, `str.isspace` and `str.rstrip`.
 */
module Text {
  import opened Wrappers

  ghost predicate NoDups<T>(xs: seq<T>) {
    forall i, j :: 0 <= i < j < |xs| ==> xs[i] != xs[j]
  }

  /** Keeps the first occurrence of every element, in order: Python's `list(dict.fromkeys(xs))`. */
  function Dedup<T(==)>(xs: seq<T>): (r: seq<T>)
    ensures forall i :: 0 <= i < |r| ==> r[i] in xs
    ensures forall i :: 0 <= i < |xs| ==> xs[i] in r
    ensures NoDups(r)
    ensures |r| <= |xs|
  {
    if xs == [] then []
    else
      var d := Dedup(xs[..|xs| - 1]);
      if xs[|xs| - 1] in d then d else d + [xs[|xs| - 1]]
  }

  lemma DedupMember<T>(xs: seq<T>, x: T)
    ensures x in Dedup(xs) <==> x in xs
  {
    if x in Dedup(xs) {
      var i :| 0 <= i < |Dedup(xs)| && Dedup(xs)[i] == x;
    }
    if x in xs {
      var i :| 0 <= i < |xs| && xs[i] == x;
    }
  }

  lemma {:induction false} DedupOfNoDups<T>(xs: seq<T>)
    requires NoDups(xs)
    ensures Dedup(xs) == xs
  {
    if xs != [] {
      var init := xs[..|xs| - 1];
      assert NoDups(init);
      DedupOfNoDups(init);
      assert xs[|xs| - 1] !in init;
      assert init + [xs[|xs| - 1]] == xs;
    }
  }

  /** De-duplicating a longer list only appends to the de-duplicated shorter one. */
  lemma {:induction false} DedupPrefix<T>(xs: seq<T>, ys: seq<T>)
    ensures Dedup(xs) <= Dedup(xs + ys)
  {
    if ys == [] {
      assert xs + ys == xs;
    } else {
      var ys' := ys[..|ys| - 1];
      DedupPrefix(xs, ys');
      assert (xs + ys)[..|xs + ys| - 1] == xs + ys';
    }
  }

  lemma DedupSnoc<T>(w: seq<T>, y: T)
    ensures Dedup(w + [y]) == if y in Dedup(w) then Dedup(w) else Dedup(w) + [y]
  {
    assert (w + [y])[..|w|] == w;
  }

  /** De-duplicating early does not change the final de-duplicated list. */
  lemma {:induction false} DedupAbsorb<T>(xs: seq<T>, ys: seq<T>)
    ensures Dedup(Dedup(xs) + ys) == Dedup(xs + ys)
  {
    if ys == [] {
      assert Dedup(xs) + ys == Dedup(xs);
      assert xs + ys == xs;
      DedupOfNoDups(Dedup(xs));
    } else {
      var ys' := ys[..|ys| - 1];
      var y := ys[|ys| - 1];
      var early, late := Dedup(xs) + ys', xs + ys';
      DedupAbsorb(xs, ys');
      assert Dedup(xs) + ys == early + [y];
      assert xs + ys == late + [y];
      DedupSameSnoc(early, late, y);
    }
  }

  /** Lists with the same de-duplication keep it when the same element is appended. */
  lemma DedupSameSnoc<T>(a: seq<T>, b: seq<T>, y: T)
    requires Dedup(a) == Dedup(b)
    ensures Dedup(a + [y]) == Dedup(b + [y])
  {
    DedupSnoc(a, y);
    DedupSnoc(b, y);
  }

  /** De-duplicating in two steps, `xs + ys` first and then `zs`, is de-duplicating once. */
  lemma DedupRegroup<T>(xs: seq<T>, ys: seq<T>, zs: seq<T>)
    ensures Dedup(Dedup(xs + ys) + zs) == Dedup(xs + (ys + zs))
  {
    var w := xs + ys;
    assert w + zs == xs + (ys + zs);
    DedupAbsorb(w, zs);
  }

  /** In a duplicate-free list every element occurs exactly once. */
  lemma {:induction false} NoDupsCount<T>(xs: seq<T>, x: T)
    requires NoDups(xs)
    ensures multiset(xs)[x] == if x in xs then 1 else 0
  {
    if xs != [] {
      assert xs == [xs[0]] + xs[1..];
      assert NoDups(xs[1..]);
      NoDupsCount(xs[1..], x);
      if x == xs[0] {
        assert x !in xs[1..];
      }
    }
  }

  /** Two duplicate-free lists with the same elements are permutations of each other. */
  lemma NoDupsSameElements<T>(xs: seq<T>, ys: seq<T>)
    requires NoDups(xs) && NoDups(ys)
    requires forall i :: 0 <= i < |xs| ==> xs[i] in ys
    requires forall i :: 0 <= i < |ys| ==> ys[i] in xs
    ensures multiset(xs) == multiset(ys)
  {
    forall x: T ensures multiset(xs)[x] == multiset(ys)[x] {
      NoDupsCount(xs, x);
      NoDupsCount(ys, x);
    }
  }

  // ---------------------------------------------------------------- ordering

  /** Python's `<=` on `str`: lexicographic by code point. */
  predicate StrLe(a: string, b: string)
    decreases a
  {
    a == [] || (b != [] && (a[0] < b[0] || (a[0] == b[0] && StrLe(a[1..], b[1..]))))
  }

  lemma {:induction false} StrLeTotal(a: string, b: string)
    ensures StrLe(a, b) || StrLe(b, a)
    decreases a
  {
    if a != [] && b != [] && a[0] == b[0] {
      StrLeTotal(a[1..], b[1..]);
    }
  }

  lemma {:induction false} StrLeReflexive(a: string)
    ensures StrLe(a, a)
    decreases a
  {
    if a != [] {
      StrLeReflexive(a[1..]);
    }
  }

  lemma {:induction false} StrLeTransitive(a: string, b: string, c: string)
    requires StrLe(a, b) && StrLe(b, c)
    ensures StrLe(a, c)
    decreases a
  {
    if a != [] && a[0] == b[0] && b[0] == c[0] {
      StrLeTransitive(a[1..], b[1..], c[1..]);
    }
  }

  lemma {:induction false} StrLeAntisymmetric(a: string, b: string)
    requires StrLe(a, b) && StrLe(b, a)
    ensures a == b
    decreases a
  {
    if a != [] {
      StrLeAntisymmetric(a[1..], b[1..]);
      assert a == [a[0]] + a[1..] && b == [b[0]] + b[1..];
    }
  }

  ghost predicate Sorted(xs: seq<string>) {
    forall i, j :: 0 <= i < j < |xs| ==> StrLe(xs[i], xs[j])
  }

  function Insert(x: string, xs: seq<string>): (r: seq<string>)
    requires Sorted(xs)
    ensures Sorted(r)
    ensures multiset(r) == multiset(xs) + multiset{x}
  {
    if xs == [] then [x]
    else if StrLe(x, xs[0]) then
      InsertFront(x, xs);
      [x] + xs
    else
      var rest := Insert(x, xs[1..]);
      InsertBehind(x, xs, rest);
      [xs[0]] + rest
  }

  lemma InsertFront(x: string, xs: seq<string>)
    requires Sorted(xs) && xs != [] && StrLe(x, xs[0])
    ensures Sorted([x] + xs)
  {
    forall j | 0 <= j < |xs| ensures StrLe(x, xs[j]) {
      if j > 0 { StrLeTransitive(x, xs[0], xs[j]); }
    }
  }

  lemma InsertBehind(x: string, xs: seq<string>, rest: seq<string>)
    requires Sorted(xs) && xs != [] && !StrLe(x, xs[0])
    requires Sorted(rest) && multiset(rest) == multiset(xs[1..]) + multiset{x}
    ensures Sorted([xs[0]] + rest)
    ensures multiset([xs[0]] + rest) == multiset(xs) + multiset{x}
  {
    StrLeTotal(x, xs[0]);
    forall i | 0 <= i < |rest| ensures StrLe(xs[0], rest[i]) {
      var y := rest[i];
      assert y in multiset(rest);
      if y != x {
        assert y in multiset(xs[1..]);
        var j :| 0 <= j < |xs[1..]| && xs[1..][j] == y;
        assert xs[j + 1] == y;
      }
    }
    assert xs == [xs[0]] + xs[1..];
  }

  /** Python's `sorted(xs)` on a list of strings (insertion sort). */
  function Sort(xs: seq<string>): (r: seq<string>)
    ensures Sorted(r)
    ensures multiset(r) == multiset(xs)
  {
    if xs == [] then [] else
      assert xs == [xs[0]] + xs[1..];
      Insert(xs[0], Sort(xs[1..]))
  }

  /** Two sorted lists with the same elements start with the same element. */
  lemma SortedSameHead(xs: seq<string>, ys: seq<string>)
    requires Sorted(xs) && Sorted(ys) && xs != []
    requires multiset(xs) == multiset(ys)
    ensures ys != [] && xs[0] == ys[0]
  {
    assert xs[0] in multiset(ys);
    assert ys[0] in multiset(xs);
    var i :| 0 <= i < |ys| && ys[i] == xs[0];
    var j :| 0 <= j < |xs| && xs[j] == ys[0];
    StrLeReflexive(xs[0]);
    assert StrLe(ys[0], xs[0]);
    assert StrLe(xs[0], ys[0]);
    StrLeAntisymmetric(xs[0], ys[0]);
  }

  /** A sorted list is determined by its elements: the result of `sorted` does not depend on the input order. */
  lemma {:induction false} SortedUnique(xs: seq<string>, ys: seq<string>)
    requires Sorted(xs) && Sorted(ys)
    requires multiset(xs) == multiset(ys)
    ensures xs == ys
  {
    if xs == [] {
      assert |ys| == |multiset(ys)| == 0;
    } else {
      SortedSameHead(xs, ys);
      TailOfSorted(xs);
      TailOfSorted(ys);
      SortedUnique(xs[1..], ys[1..]);
      assert xs == [xs[0]] + xs[1..] && ys == [ys[0]] + ys[1..];
    }
  }

  lemma TailOfSorted(xs: seq<string>)
    requires Sorted(xs) && xs != []
    ensures Sorted(xs[1..])
    ensures multiset(xs[1..]) == multiset(xs) - multiset{xs[0]}
  {
    assert xs == [xs[0]] + xs[1..];
  }

  lemma SortPermutationInvariant(xs: seq<string>, ys: seq<string>)
    requires multiset(xs) == multiset(ys)
    ensures Sort(xs) == Sort(ys)
  {
    SortedUnique(Sort(xs), Sort(ys));
  }

  // ---------------------------------------------------------------- strings

  /** Python's `sep.join(parts)`. */
  function Join(parts: seq<string>, sep: string): string {
    if parts == [] then ""
    else if |parts| == 1 then parts[0]
    else parts[0] + sep + Join(parts[1..], sep)
  }

  /** Joining one more part appends the separator and the part. */
  lemma {:induction false} JoinSnoc(parts: seq<string>, x: string, sep: string)
    ensures Join(parts + [x], sep) == if parts == [] then x else Join(parts, sep) + sep + x
  {
    if |parts| == 1 {
      assert parts + [x] == [parts[0], x];
    } else if |parts| > 1 {
      assert (parts + [x])[1..] == parts[1..] + [x];
      JoinSnoc(parts[1..], x, sep);
    }
  }

  /** With an empty separator, joining one more part appends it. */
  lemma ConcatSnoc(parts: seq<string>, x: string)
    ensures Join(parts + [x], "") == Join(parts, "") + x
  {
    JoinSnoc(parts, x, "");
    if parts != [] {
      assert Join(parts, "") + "" + x == Join(parts, "") + x;
    }
  }

  /** A joined text is blank only if every part is. */
  lemma {:induction false} JoinNotBlank(parts: seq<string>, sep: string, i: nat)
    requires i < |parts| && !IsBlank(parts[i])
    ensures !IsBlank(Join(parts, sep))
  {
    var k :| 0 <= k < |parts[i]| && !IsSpace(parts[i][k]);
    if |parts| == 1 {
      assert Join(parts, sep)[k] == parts[i][k];
    } else if i == 0 {
      assert Join(parts, sep)[k] == parts[0][k];
    } else {
      JoinNotBlank(parts[1..], sep, i - 1);
      var rest := Join(parts[1..], sep);
      var m :| 0 <= m < |rest| && !IsSpace(rest[m]);
      assert Join(parts, sep)[|parts[0]| + |sep| + m] == rest[m];
    }
  }

  /** Python's `s.split(sep)` for a one-character separator: never empty, separators removed. */
  function Split(s: string, sep: char): (r: seq<string>)
    ensures |r| >= 1
  {
    if sep !in s then [s]
    else
      var i := IndexOfChar(s, sep);
      [s[..i]] + Split(s[i + 1..], sep)
  }

  /** No part of a split holds the separator. */
  lemma {:induction false} SplitPartsFree(s: string, sep: char)
    ensures forall i :: 0 <= i < |Split(s, sep)| ==> sep !in Split(s, sep)[i]
  {
    if sep in s {
      var i := IndexOfChar(s, sep);
      SplitPartsFree(s[i + 1..], sep);
      var r := Split(s, sep);
      forall j | 0 <= j < |r| ensures sep !in r[j] {
        if j > 0 {
          assert r[j] == Split(s[i + 1..], sep)[j - 1];
        }
      }
    }
  }

  function IndexOfChar(s: string, c: char): (i: nat)
    requires c in s
    ensures i < |s| && s[i] == c && c !in s[..i]
  {
    if s[0] == c then 0 else
      assert c in s[1..] by { var k :| 0 <= k < |s| && s[k] == c; assert s[1..][k - 1] == c; }
      1 + IndexOfChar(s[1..], c)
  }

  /** Splitting at a separator and joining back with it gives the original string. */
  lemma {:induction false} JoinSplit(s: string, sep: char)
    ensures Join(Split(s, sep), [sep]) == s
  {
    if sep in s {
      var i := IndexOfChar(s, sep);
      var head, tail := s[..i], s[i + 1..];
      SplitAt(s, sep, i);
      JoinSplit(tail, sep);
      JoinCons(head, Split(tail, sep), [sep]);
      assert s == head + [sep] + tail by {
        assert s[i] == sep;
      }
    }
  }

  /** `str.split` cuts at the first separator. */
  lemma SplitAt(s: string, sep: char, i: nat)
    requires i < |s| && s[i] == sep && sep !in s[..i]
    ensures Split(s, sep) == [s[..i]] + Split(s[i + 1..], sep)
  {
  }

  /** Splitting `first.rest` when `first` holds no dot. */
  lemma SplitAfter(first: string, rest: string)
    requires '.' !in first
    ensures Split(first + "." + rest, '.') == [first] + Split(rest, '.')
  {
    var s := first + "." + rest;
    assert s[..|first|] == first;
    assert s[|first| + 1..] == rest;
    SplitAt(s, '.', |first|);
  }

  /** Joining a first part in front of a non-empty list puts one separator between them. */
  lemma JoinCons(a: string, rest: seq<string>, sep: string)
    requires rest != []
    ensures Join([a] + rest, sep) == a + sep + Join(rest, sep)
  {
    assert ([a] + rest)[1..] == rest;
  }

  /** Python's `str.isspace()` for one character (the Unicode White_Space set Python uses). */
  predicate IsSpace(c: char) {
    || ('\t' <= c <= '\r')
    || ('\U{1C}' <= c <= ' ')
    || c == '\U{85}' || c == '\U{A0}' || c == '\U{1680}'
    || ('\U{2000}' <= c <= '\U{200A}')
    || c == '\U{2028}' || c == '\U{2029}' || c == '\U{202F}' || c == '\U{205F}' || c == '\U{3000}'
  }

  /** `s.strip() == ""`. */
  predicate IsBlank(s: string) {
    forall i :: 0 <= i < |s| ==> IsSpace(s[i])
  }

  /** `s` does not end in white space: what `rstrip()` guarantees. */
  predicate NoTrailingSpace(s: string) {
    s == [] || !IsSpace(s[|s| - 1])
  }

  /** Python's `s.rstrip()`. */
  function RStrip(s: string): (r: string)
    ensures r <= s
    ensures r == [] || !IsSpace(r[|r| - 1])
    ensures NoTrailingSpace(r)
    ensures forall i :: |r| <= i < |s| ==> IsSpace(s[i])
  {
    if s == [] || !IsSpace(s[|s| - 1]) then s else RStrip(s[..|s| - 1])
  }

  /** Stripping trailing whitespace leaves a string empty only if it was blank. */
  lemma RStripEmpty(s: string)
    ensures RStrip(s) == [] <==> IsBlank(s)
  {
  }

  /**
   * Python's `re.match` with a pattern anchored by `^...$`: `$` also matches just
   * before a final newline, so `p` may hold of the string without that newline.
   */
  predicate MatchesAnchored(p: string -> bool, s: string) {
    p(s) || (|s| > 0 && s[|s| - 1] == '\n' && p(s[..|s| - 1]))
  }

  /**
   * `r` is what an ordered first-match classifier returns: the tag of the first
   * rule that accepts `x`, or `None` when no rule does.
   */
  ghost predicate FirstMatch<T>(rules: seq<(string, T -> bool)>, x: T, r: Option<string>) {
    match r
    case None => forall i :: 0 <= i < |rules| ==> !rules[i].1(x)
    case Some(tag) =>
      exists i :: 0 <= i < |rules| && rules[i].0 == tag && rules[i].1(x) && forall j :: 0 <= j < i ==> !rules[j].1(x)
  }

  /** Rule `i` accepts `x` and no earlier rule does: its tag is the first match. */
  lemma FirstMatchAt<T>(rules: seq<(string, T -> bool)>, x: T, i: nat)
    requires i < |rules| && rules[i].1(x)
    requires forall j :: 0 <= j < i ==> !rules[j].1(x)
    ensures FirstMatch(rules, x, Some(rules[i].0))
  {
  }
}
