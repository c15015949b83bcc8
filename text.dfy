/**
  String and list helpers with the meaning the backend's Python and the
  client's TypeScript give them: `str.find`/`str.rfind`, `str.strip`,
  `str.split(sep)`, `str.replace(pat, '')`, `sep.join`, slicing `[:n]` /
  `slice(0, n)`, `String.prototype.includes`, and the de-duplication that
  `list(set(xs))` performs.
*/
module Text {

  /** Characters Python's `str.isspace` accepts, so the ones `str.strip()` removes. */
  predicate IsSpace(c: char) {
    c == ' ' || c == '\t' || c == '\n' || c == '\r' || c == '\U{0B}' || c == '\U{0C}'
    || ('\U{1C}' <= c <= '\U{1F}') || c == '\U{85}' || c == '\U{A0}' || c == '\U{1680}'
    || ('\U{2000}' <= c <= '\U{200A}') || c == '\U{2028}' || c == '\U{2029}'
    || c == '\U{202F}' || c == '\U{205F}' || c == '\U{3000}'
  }

  /** A string made of whitespace only (the empty string included). */
  predicate IsBlank(s: string) {
    forall k :: 0 <= k < |s| ==> IsSpace(s[k])
  }

  /** Python `s.find(c)`: the first index of `c`, or -1. */
  function IndexOf(s: string, c: char): (r: int)
    ensures -1 <= r < |s|
    ensures r == -1 <==> c !in s
    ensures r >= 0 ==> s[r] == c && c !in s[..r]
  {
    if |s| == 0 then -1
    else if s[0] == c then 0
    else
      var k := IndexOf(s[1..], c);
      if k == -1 then -1
      else
        assert s[..k + 1] == [s[0]] + s[1..][..k];
        k + 1
  }

  /** The first index whose element satisfies `p`, or -1 (a `for` loop that breaks at the first hit). */
  function FirstIndexWhere<T>(xs: seq<T>, p: T -> bool): (r: int)
    ensures -1 <= r < |xs|
    ensures r == -1 ==> forall k :: 0 <= k < |xs| ==> !p(xs[k])
    ensures r >= 0 ==> p(xs[r]) && forall k :: 0 <= k < r ==> !p(xs[k])
  {
    if |xs| == 0 then -1
    else if p(xs[0]) then 0
    else
      var tail := xs[1..];
      assert forall k :: 0 < k < |xs| ==> xs[k] == tail[k - 1];
      var i := FirstIndexWhere(tail, p);
      if i == -1 then -1 else i + 1
  }

  /** Python `s.rfind(c)`: the last index of `c`, or -1. */
  function LastIndexOf(s: string, c: char): (r: int)
    ensures -1 <= r < |s|
    ensures r == -1 <==> c !in s
    ensures r >= 0 ==> s[r] == c && c !in s[r + 1..]
  {
    if |s| == 0 then -1
    else if s[|s| - 1] == c then |s| - 1
    else
      var k := LastIndexOf(s[..|s| - 1], c);
      LastStep(s, c, k);
      k
  }

  /** Appending two elements one at a time appends the pair. */
  lemma AppendPair<T>(xs: seq<T>, x: T, y: T)
    ensures xs + [x] + [y] == xs + [x, y]
  {
  }

  /** A character is in a non-empty string iff it is in its first `|s| - 1` or is the last one. */
  lemma LastStep(s: string, c: char, k: int)
    requires |s| > 0 && s[|s| - 1] != c && -1 <= k < |s| - 1
    requires k == -1 <==> c !in s[..|s| - 1]
    requires k >= 0 ==> c !in s[..|s| - 1][k + 1..]
    ensures k == -1 <==> c !in s
    ensures k >= 0 ==> c !in s[k + 1..]
  {
    assert s == s[..|s| - 1] + [s[|s| - 1]];
    if k >= 0 {
      assert s[k + 1..] == s[..|s| - 1][k + 1..] + [s[|s| - 1]];
    }
  }

  /** The number of whitespace characters `str.lstrip()` removes. */
  function LeadingSpace(s: string): (n: nat)
    ensures n <= |s|
    ensures forall k :: 0 <= k < n ==> IsSpace(s[k])
    ensures n < |s| ==> !IsSpace(s[n])
  {
    if |s| == 0 || !IsSpace(s[0]) then 0 else 1 + LeadingSpace(s[1..])
  }

  /** The number of whitespace characters `str.rstrip()` removes. */
  function TrailingSpace(s: string): (n: nat)
    ensures n <= |s|
    ensures forall k :: |s| - n <= k < |s| ==> IsSpace(s[k])
    ensures n < |s| ==> !IsSpace(s[|s| - n - 1])
  {
    if |s| == 0 || !IsSpace(s[|s| - 1]) then 0 else 1 + TrailingSpace(s[..|s| - 1])
  }

  /**
    Python `s.strip()`. The result is the slice of `s` after its leading
    whitespace; it neither starts nor ends with whitespace, and it is empty
    exactly when `s` is blank.
  */
  function Strip(s: string): (r: string)
    ensures |r| <= |s|
    ensures LeadingSpace(s) + |r| <= |s| && r == s[LeadingSpace(s)..LeadingSpace(s) + |r|]
    ensures r != "" ==> !IsSpace(r[0]) && !IsSpace(r[|r| - 1])
    ensures r == "" <==> IsBlank(s)
    ensures forall k :: LeadingSpace(s) + |r| <= k < |s| ==> IsSpace(s[k])
  {
    var a := LeadingSpace(s);
    if a == |s| then ""
    else
      var b := TrailingSpace(s);
      assert a < |s| - b;
      s[a..|s| - b]
  }

  /** A string that neither starts nor ends with whitespace is its own strip. */
  lemma StripStripped(s: string)
    requires s != "" && !IsSpace(s[0]) && !IsSpace(s[|s| - 1])
    ensures Strip(s) == s
  {
    assert LeadingSpace(s) == 0;
  }

  /** Python `s.split(sep)` with an explicit one-character separator. */
  function Split(s: string, sep: char): (r: seq<string>)
    ensures |r| >= 1
    ensures forall k :: 0 <= k < |r| ==> sep !in r[k]
    ensures JoinWith(r, [sep]) == s
    decreases |s|
  {
    var i := IndexOf(s, sep);
    if i == -1 then [s]
    else
      var rest := Split(s[i + 1..], sep);
      JoinCons(s[..i], rest, [sep]);
      assert s == s[..i] + [sep] + s[i + 1..];
      SplitPieces(s[..i], rest, sep);
      [s[..i]] + rest
  }

  /** Joining a list with a head puts the separator after the head. */
  lemma JoinCons(x: string, rest: seq<string>, sep: string)
    requires |rest| >= 1
    ensures JoinWith([x] + rest, sep) == x + sep + JoinWith(rest, sep)
  {
    assert ([x] + rest)[1..] == rest;
  }

  /** A head without the separator in front of pieces without it gives pieces without it. */
  lemma SplitPieces(x: string, rest: seq<string>, sep: char)
    requires sep !in x
    requires forall k :: 0 <= k < |rest| ==> sep !in rest[k]
    ensures forall k :: 0 <= k < |[x] + rest| ==> sep !in ([x] + rest)[k]
  {
  }

  /** Python `sep.join(parts)` and TypeScript `parts.join(sep)`. */
  function JoinWith(parts: seq<string>, sep: string): string {
    if |parts| == 0 then ""
    else if |parts| == 1 then parts[0]
    else parts[0] + sep + JoinWith(parts[1..], sep)
  }

  /** ASCII lower-casing of one character. */
  function LowerChar(c: char): char {
    if 'A' <= c <= 'Z' then (c as int + 32) as char else c
  }

  /** Lower-casing (`str.lower()` / `toLowerCase()`), restricted to ASCII letters. */
  function Lower(s: string): (r: string)
    ensures |r| == |s|
    ensures forall k :: 0 <= k < |s| ==> r[k] == LowerChar(s[k])
  {
    seq(|s|, k requires 0 <= k < |s| => LowerChar(s[k]))
  }

  /** TypeScript `s.includes(sub)`: `sub` occurs in `s` as a contiguous slice. */
  predicate Contains(s: string, sub: string) {
    sub <= s || (|s| > 0 && Contains(s[1..], sub))
  }

  /** `sub` occurs in `s` at index `i`. */
  predicate OccursAt(s: string, sub: string, i: int) {
    0 <= i <= |s| - |sub| && s[i..i + |sub|] == sub
  }

  /** `Contains` agrees with the index-based definition, in both directions. */
  lemma {:induction false} ContainsAt(s: string, sub: string)
    ensures Contains(s, sub) <==> exists i :: OccursAt(s, sub, i)
  {
    if sub <= s {
      assert OccursAt(s, sub, 0);
    } else if |s| > 0 {
      ContainsAt(s[1..], sub);
      if exists i :: OccursAt(s, sub, i) {
        var i :| OccursAt(s, sub, i);
        assert i != 0;
        TailSlice(s, i - 1, |sub|);
        assert OccursAt(s[1..], sub, i - 1);
      }
      if Contains(s[1..], sub) {
        var i :| OccursAt(s[1..], sub, i);
        TailSlice(s, i, |sub|);
        assert OccursAt(s, sub, i + 1);
      }
    }
  }

  /** A slice of the tail is the slice of the whole one place further on. */
  lemma TailSlice(s: string, i: int, n: int)
    requires 0 <= i && 0 <= n && i + n < |s|
    ensures s[1..][i..i + n] == s[i + 1..i + 1 + n]
  {
    var a, b := s[1..][i..i + n], s[i + 1..i + 1 + n];
    assert forall k :: 0 <= k < n ==> a[k] == b[k];
  }

  /**
    Python `s.replace(pat, '')`: occurrences are removed left to right
    without overlap. Nothing is ever added, and a string with no
    occurrence is returned unchanged.
  */
  function RemoveAll(s: string, pat: string): (r: string)
    requires |pat| > 0
    ensures |r| <= |s|
    ensures multiset(r) <= multiset(s)
    ensures !Contains(s, pat) ==> r == s
    decreases |s|
  {
    if |s| == 0 then ""
    else if pat <= s then
      assert s == s[..|pat|] + s[|pat|..];
      RemoveAll(s[|pat|..], pat)
    else
      assert s == [s[0]] + s[1..];
      [s[0]] + RemoveAll(s[1..], pat)
  }

  /**
    When `pat` does not occur in `a` nor start inside it, it is not a
    prefix of `a + pat + b`, and the same holds one character on.
  */
  lemma NoEarlyOccurrence(a: string, pat: string, b: string)
    requires |a| > 0 && |pat| > 0
    requires !Contains(a + pat[..|pat| - 1], pat)
    ensures !(pat <= a + pat + b)
    ensures !Contains(a[1..] + pat[..|pat| - 1], pat)
  {
    var head := a + pat[..|pat| - 1];
    assert (a + pat + b)[..|pat|] == head[..|pat|];
    assert head[1..] == a[1..] + pat[..|pat| - 1];
  }

  /**
    `replace` removes the leftmost occurrence first: when `pat` does not
    occur in `a` nor start inside `a`, the text before the occurrence is
    kept and the removal goes on after it.
  */
  lemma {:induction false} RemoveLeftmost(a: string, pat: string, b: string)
    requires |pat| > 0
    requires !Contains(a + pat[..|pat| - 1], pat)
    ensures RemoveAll(a + pat + b, pat) == a + RemoveAll(b, pat)
    decreases |a|
  {
    if a == [] {
      assert a + pat + b == pat + b;
      RemoveAtStart(pat, b);
    } else {
      NoEarlyOccurrence(a, pat, b);
      RemoveKeepsHead(a + pat + b, pat);
      RemoveLeftmost(a[1..], pat, b);
      ConsTail(a, pat, b, RemoveAll(b, pat));
    }
  }

  /** An occurrence at the very start is removed. */
  lemma RemoveAtStart(pat: string, b: string)
    requires |pat| > 0
    ensures RemoveAll(pat + b, pat) == RemoveAll(b, pat)
  {
    assert pat <= pat + b;
    assert (pat + b)[|pat|..] == b;
  }

  /** A first character that starts no occurrence is kept. */
  lemma RemoveKeepsHead(s: string, pat: string)
    requires |pat| > 0 && |s| > 0 && !(pat <= s)
    ensures RemoveAll(s, pat) == [s[0]] + RemoveAll(s[1..], pat)
  {
  }

  /** Putting the first character back in front of the rest. */
  lemma ConsTail(a: string, pat: string, b: string, rest: string)
    requires |a| > 0
    ensures (a + pat + b)[1..] == a[1..] + pat + b
    ensures [(a + pat + b)[0]] + (a[1..] + rest) == a + rest
  {
    assert [a[0]] + a[1..] == a;
  }

  /** Python `xs[:n]` and TypeScript `xs.slice(0, n)`. */
  function Take<T>(xs: seq<T>, n: nat): (r: seq<T>)
    ensures |r| == if n < |xs| then n else |xs|
    ensures r <= xs
  {
    if n < |xs| then xs[..n] else xs
  }

  /** The elements of a list, as Python's `set(xs)` sees them. */
  function Elems<T(==)>(xs: seq<T>): set<T> {
    set x | x in xs
  }

  /** No element occurs twice. */
  predicate NoDup<T(==)>(xs: seq<T>) {
    forall i, j :: 0 <= i < j < |xs| ==> xs[i] != xs[j]
  }

  /** A duplicate-free list has as many elements as its set. */
  lemma {:induction false} NoDupCard<T>(xs: seq<T>)
    requires NoDup(xs)
    ensures |Elems(xs)| == |xs|
  {
    if |xs| > 0 {
      var init := xs[..|xs| - 1];
      assert NoDup(init);
      NoDupCard(init);
      assert xs == init + [xs[|xs| - 1]];
      assert xs[|xs| - 1] !in init;
      assert Elems(xs) == Elems(init) + {xs[|xs| - 1]};
    }
  }

  /** A set is never larger than the list it was built from. */
  lemma {:induction false} ElemsCard<T>(xs: seq<T>)
    ensures |Elems(xs)| <= |xs|
  {
    if |xs| > 0 {
      var init := xs[..|xs| - 1];
      ElemsCard(init);
      assert xs == init + [xs[|xs| - 1]];
      assert Elems(xs) == Elems(init) + {xs[|xs| - 1]};
    }
  }

  /**
    The elements of `xs` that lie in `keep`, each once, in order of first
    occurrence. This is the model's choice for the order Python's
    `list(<set>)` produces, which the language leaves unspecified.
  */
  function SetToList<T(==)>(xs: seq<T>, keep: set<T>): (r: seq<T>)
    ensures Elems(r) == Elems(xs) * keep
    ensures NoDup(r)
  {
    if |xs| == 0 then []
    else
      var init := SetToList(xs[..|xs| - 1], keep);
      var x := xs[|xs| - 1];
      assert xs == xs[..|xs| - 1] + [x];
      assert Elems(xs) == Elems(xs[..|xs| - 1]) + {x};
      if x in keep && x !in init then
        assert Elems(init + [x]) == Elems(init) + {x};
        init + [x]
      else init
  }

  /** Python `list(set(xs))`: every element once. */
  function Dedup<T(==)>(xs: seq<T>): (r: seq<T>)
    ensures Elems(r) == Elems(xs)
    ensures NoDup(r)
    ensures |r| == |Elems(xs)|
  {
    var r := SetToList(xs, Elems(xs));
    NoDupCard(r);
    r
  }

  /** The elements of `xs` satisfying `p`, in order (a list comprehension with a guard). */
  function Filter<T>(xs: seq<T>, p: T -> bool): (r: seq<T>)
    ensures |r| <= |xs|
    ensures forall k :: 0 <= k < |r| ==> r[k] in xs && p(r[k])
    ensures forall k :: 0 <= k < |xs| && p(xs[k]) ==> xs[k] in r
  {
    if |xs| == 0 then []
    else
      var init := Filter(xs[..|xs| - 1], p);
      var x := xs[|xs| - 1];
      assert xs == xs[..|xs| - 1] + [x];
      if p(x) then init + [x] else init
  }

  /** Filtering a list extended by one element extends the result by at most that element. */
  lemma FilterSnoc<T>(xs: seq<T>, x: T, p: T -> bool)
    ensures Filter(xs + [x], p) == Filter(xs, p) + (if p(x) then [x] else [])
  {
    assert (xs + [x])[..|xs + [x]| - 1] == xs;
  }

  /**
    Filtering keeps every copy of an element that passes and none of one
    that fails: the multiplicities, not just the membership.
  */
  lemma {:induction false} FilterCount<T>(xs: seq<T>, p: T -> bool)
    ensures forall x :: x in multiset(Filter(xs, p)) ==> x in multiset(xs) && p(x)
    ensures forall k :: 0 <= k < |xs| ==>
              multiset(Filter(xs, p))[xs[k]] == if p(xs[k]) then multiset(xs)[xs[k]] else 0
  {
    if |xs| > 0 {
      var init, x := xs[..|xs| - 1], xs[|xs| - 1];
      FilterCount(init, p);
      assert xs == init + [x];
      assert multiset(xs) == multiset(init) + multiset{x};
      forall k | 0 <= k < |xs|
        ensures multiset(Filter(xs, p))[xs[k]] == if p(xs[k]) then multiset(xs)[xs[k]] else 0
      {
        var y := xs[k];
        if y !in init {
          assert multiset(init)[y] == 0;
          if p(y) {
            assert multiset(Filter(init, p))[y] == 0;
          }
        }
      }
    }
  }

  /** A filter that every element passes keeps the whole list. */
  lemma {:induction false} FilterKeepsAll<T>(xs: seq<T>, p: T -> bool)
    requires forall k :: 0 <= k < |xs| ==> p(xs[k])
    ensures Filter(xs, p) == xs
  {
    if |xs| > 0 {
      var init := xs[..|xs| - 1];
      FilterKeepsAll(init, p);
      assert xs == init + [xs[|xs| - 1]];
    }
  }

  /** `xs` is `ys` with some elements deleted: the order of what remains is kept. */
  predicate Subsequence<T(==)>(xs: seq<T>, ys: seq<T>)
    decreases |ys|
  {
    if |xs| == 0 then true
    else if |ys| == 0 then false
    else (xs[|xs| - 1] == ys[|ys| - 1] && Subsequence(xs[..|xs| - 1], ys[..|ys| - 1]))
         || Subsequence(xs, ys[..|ys| - 1])
  }

  /** Filtering keeps the order of the surviving elements. */
  lemma {:induction false} FilterIsSubsequence<T>(xs: seq<T>, p: T -> bool)
    ensures Subsequence(Filter(xs, p), xs)
  {
    if |xs| > 0 {
      var init := xs[..|xs| - 1];
      FilterIsSubsequence(init, p);
      assert xs == init + [xs[|xs| - 1]];
      var f := Filter(xs, p);
      if p(xs[|xs| - 1]) {
        assert f[..|f| - 1] == Filter(init, p);
      }
    }
  }

  /** `f` applied to every element, in order. */
  function MapSeq<T, U>(xs: seq<T>, f: T -> U): (r: seq<U>)
    ensures |r| == |xs|
    ensures forall k :: 0 <= k < |xs| ==> r[k] == f(xs[k])
  {
    seq(|xs|, k requires 0 <= k < |xs| => f(xs[k]))
  }

  /** Mapping over a concatenation maps each part. */
  lemma MapSeqAppend<T, U>(xs: seq<T>, ys: seq<T>, f: T -> U)
    ensures MapSeq(xs + ys, f) == MapSeq(xs, f) + MapSeq(ys, f)
  {
    var l, a, b := MapSeq(xs + ys, f), MapSeq(xs, f), MapSeq(ys, f);
    assert forall k :: 0 <= k < |l| ==> l[k] == (a + b)[k];
  }

  /**
    JavaScript's `s.length`: UTF-16 code units, one for a character of the
    Basic Multilingual Plane and two (a surrogate pair) for any other.
  */
  function Utf16Length(s: string): (n: nat)
    ensures |s| <= n <= 2 * |s|
    ensures (forall k :: 0 <= k < |s| ==> (s[k] as int) < 0x1_0000) ==> n == |s|
  {
    if |s| == 0 then 0
    else Utf16Length(s[..|s| - 1]) + (if (s[|s| - 1] as int) < 0x1_0000 then 1 else 2)
  }
}
