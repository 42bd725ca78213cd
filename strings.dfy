/**
 * The handful of Python `str` operations the agent's core relies on,
 * written over `seq<char>`: `in` (substring), `startswith`, `endswith`,
 * `lower`, `strip`, `join`, `split`, `replace(pat, "")`,
 * `split("/")[-1]` and `str(n)` for a natural number.
 */
module Strings {

  predicate StartsWith(s: string, prefix: string) {
    |prefix| <= |s| && s[..|prefix|] == prefix
  }

  predicate EndsWith(s: string, suffix: string) {
    |suffix| <= |s| && s[|s| - |suffix|..] == suffix
  }

  /** Python's `sub in s`: some position of `s` starts with `sub`. */
  predicate Contains(s: string, sub: string)
    decreases |s|
  {
    StartsWith(s, sub) || (s != [] && Contains(s[1..], sub))
  }

  /** `str.lower` on ASCII letters. */
  function LowerChar(c: char): char {
    if 'A' <= c <= 'Z' then (c as int + 32) as char else c
  }

  function Lower(s: string): string {
    if s == [] then [] else [LowerChar(s[0])] + Lower(s[1..])
  }

  /** The characters `str.strip()` removes that are ASCII: tab to carriage
      return, the four separators 0x1c-0x1f, and space. */
  predicate IsSpace(c: char) {
    9 <= c as int <= 13 || 28 <= c as int <= 32
  }

  function TrimStart(s: string): string
    decreases |s|
  {
    if s != [] && IsSpace(s[0]) then TrimStart(s[1..]) else s
  }

  function TrimEnd(s: string): string
    decreases |s|
  {
    if s != [] && IsSpace(s[|s| - 1]) then TrimEnd(s[..|s| - 1]) else s
  }

  function Strip(s: string): string {
    TrimEnd(TrimStart(s))
  }

  predicate AllSpace(w: string) {
    forall i :: 0 <= i < |w| ==> IsSpace(w[i])
  }

  /** Leading whitespace is skipped whatever follows it. */
  lemma {:induction false} TrimStartSpaces(w: string, s: string)
    requires AllSpace(w)
    ensures TrimStart(w + s) == TrimStart(s)
    decreases |w|
  {
    if w == [] {
      assert w + s == s;
    } else {
      assert (w + s)[1..] == w[1..] + s;
      TrimStartSpaces(w[1..], s);
    }
  }

  /** Trailing whitespace is dropped whatever precedes it. */
  lemma {:induction false} TrimEndSpaces(s: string, w: string)
    requires AllSpace(w)
    ensures TrimEnd(s + w) == TrimEnd(s)
    decreases |w|
  {
    if w == [] {
      assert s + w == s;
    } else {
      assert (s + w)[..|s + w| - 1] == s + w[..|w| - 1];
      TrimEndSpaces(s, w[..|w| - 1]);
    }
  }

  /** Trimming the end never reaches past a non-space character. */
  lemma {:induction false} TrimEndAfter(p: string, q: string, j: nat)
    requires j < |q| && !IsSpace(q[j])
    ensures TrimEnd(p + q) == p + TrimEnd(q)
    decreases |q|
  {
    if IsSpace(q[|q| - 1]) {
      assert (p + q)[..|p + q| - 1] == p + q[..|q| - 1];
      TrimEndAfter(p, q[..|q| - 1], j);
    }
  }

  /** `strip` of a text indented and followed by the same whitespace,
      whose first character is not a space: the text with its trailing
      whitespace dropped. */
  lemma StripIndented(w: string, core: string)
    requires AllSpace(w) && core != [] && !IsSpace(core[0])
    ensures Strip(w + core + w) == TrimEnd(core)
  {
    assert w + core + w == w + (core + w);
    TrimStartSpaces(w, core + w);
    TrimEndSpaces(core, w);
  }

  /** `sep.join(xs)`. */
  function Join(xs: seq<string>, sep: string): string {
    if xs == [] then []
    else if |xs| == 1 then xs[0]
    else xs[0] + sep + Join(xs[1..], sep)
  }

  /** `s.split(sep)` for a non-empty separator: cut at every leftmost,
      non-overlapping occurrence of `sep`. Never empty. */
  function Split(s: string, sep: string): (r: seq<string>)
    requires sep != []
    ensures |r| >= 1
    decreases |s|
  {
    if |s| < |sep| then [s]
    else if s[..|sep|] == sep then [[]] + Split(s[|sep|..], sep)
    else
      var rest := Split(s[1..], sep);
      [[s[0]] + rest[0]] + rest[1..]
  }

  /** `s.replace(pat, "")`: drop every leftmost, non-overlapping occurrence
      of `pat`, scanning once from the left. */
  function RemoveAll(s: string, pat: string): (r: string)
    requires pat != []
    ensures |r| <= |s|
    decreases |s|
  {
    if StartsWith(s, pat) then RemoveAll(s[|pat|..], pat)
    else if s == [] then []
    else [s[0]] + RemoveAll(s[1..], pat)
  }

  /** `s.split(c)[-1]`: the longest suffix of `s` in which `c` does not
      occur. */
  function AfterLast(s: string, c: char): (r: string)
    ensures c !in r
    ensures |r| <= |s| && r == s[|s| - |r|..]
    ensures |r| < |s| ==> s[|s| - |r| - 1] == c
    ensures c !in s ==> r == s
  {
    if s == [] then []
    else if s[|s| - 1] == c then []
    else AfterLast(s[..|s| - 1], c) + [s[|s| - 1]]
  }

  function DigitChar(d: nat): char
    requires d < 10
  {
    ('0' as int + d) as char
  }

  /** `str(n)` for a natural number: decimal digits, most significant first. */
  function NatToString(n: nat): (r: string)
    ensures |r| >= 1
    ensures forall i :: 0 <= i < |r| ==> '0' <= r[i] <= '9'
  {
    if n < 10 then [DigitChar(n)] else NatToString(n / 10) + [DigitChar(n % 10)]
  }

  /** `str(i)` for any integer. */
  function IntToString(i: int): string {
    if i < 0 then "-" + NatToString(-i) else NatToString(i)
  }

  /** Reads a string of decimal digits back as a number. */
  function DigitsValue(s: string): nat
    requires forall i :: 0 <= i < |s| ==> '0' <= s[i] <= '9'
  {
    if s == [] then 0
    else 10 * DigitsValue(s[..|s| - 1]) + (s[|s| - 1] as int - '0' as int)
  }

  // ---------------------------------------------------------------------
  // Lemmas

  /** Reading a rendered number gives the number back. */
  lemma {:induction false} NatToStringRoundTrip(n: nat)
    ensures DigitsValue(NatToString(n)) == n
  {
    if n >= 10 {
      NatToStringRoundTrip(n / 10);
      var r := NatToString(n);
      assert r[..|r| - 1] == NatToString(n / 10);
    }
  }

  lemma {:induction false} NotContainsTail(s: string, sub: string)
    requires !Contains(s, sub) && s != []
    ensures !Contains(s[1..], sub) && !StartsWith(s, sub)
  {
  }

  /** A string without the pattern is left alone by `replace(pat, "")`. */
  lemma {:induction false} RemoveAllAbsent(s: string, pat: string)
    requires pat != [] && !Contains(s, pat)
    ensures RemoveAll(s, pat) == s
    decreases |s|
  {
    if s != [] {
      RemoveAllAbsent(s[1..], pat);
      assert [s[0]] + s[1..] == s;
    }
  }

  /** Removing a leading occurrence of the pattern, then the rest. */
  lemma RemoveAllAfterPrefix(pat: string, k: string)
    requires pat != [] && !Contains(k, pat)
    ensures RemoveAll(pat + k, pat) == k
  {
    assert (pat + k)[..|pat|] == pat;
    assert (pat + k)[|pat|..] == k;
    RemoveAllAbsent(k, pat);
  }

  /** The separator used for author and category lists. */
  const ListSep: string := ", "

  /** A string free of the separator splits into itself. */
  lemma {:induction false} SplitNoSeparator(x: string, sep: string)
    requires sep != [] && !Contains(x, sep)
    ensures Split(x, sep) == [x]
    decreases |x|
  {
    if |x| >= |sep| {
      assert !StartsWith(x, sep);
      SplitNoSeparator(x[1..], sep);
      assert [x[0]] + x[1..] == x;
    }
  }

  /** No occurrence of `sep` starts inside `x`, not even one that runs on
      into a copy of `sep` placed after it: `x` is a clean item for
      `sep.join`. */
  predicate CleanItem(x: string, sep: string) {
    forall j :: 0 <= j < |x| ==> !StartsWith(x[j..] + sep, sep)
  }

  /** An item free of a head-unique separator is clean. */
  lemma CleanWithoutHeadUnique(x: string, sep: string)
    requires HeadUnique(sep) && !Contains(x, sep)
    ensures CleanItem(x, sep)
  {
    forall j | 0 <= j < |x|
      ensures !StartsWith(x[j..] + sep, sep)
    {
      assert x[..j] + x[j..] == x;
      if Contains(x[j..], sep) {
        ContainedInSuffix(x[..j], x[j..], sep);
      }
      NotStartingBefore(x[j..], sep, []);
      assert x[j..] + sep + [] == x[j..] + sep;
    }
  }

  /** An item lacking the separator's first character is clean. */
  lemma CleanWithoutHead(x: string, sep: string)
    requires sep != [] && sep[0] !in x
    ensures CleanItem(x, sep) && !Contains(x, sep)
  {
    forall j | 0 <= j < |x|
      ensures !StartsWith(x[j..] + sep, sep)
    {
      assert (x[j..] + sep)[0] == x[j];
    }
    MissingCharNotContained(x, sep, sep[0]);
  }

  /** A clean item followed by the separator splits off as one piece. */
  lemma {:induction false} SplitAfterItem(x: string, sep: string, t: string)
    requires sep != [] && CleanItem(x, sep)
    ensures Split(x + sep + t, sep) == [x] + Split(t, sep)
    decreases |x|
  {
    var s := x + sep + t;
    if x == [] {
      assert s == sep + t;
      assert s[..|sep|] == sep;
      assert s[|sep|..] == t;
    } else {
      assert s[..|sep|] != sep by {
        assert x[0..] == x;
        assert s[..|sep|] == (x + sep)[..|sep|];
      }
      assert CleanItem(x[1..], sep) by {
        forall j | 0 <= j < |x[1..]|
          ensures !StartsWith(x[1..][j..] + sep, sep)
        {
          assert x[1..][j..] == x[j + 1..];
        }
      }
      SplitAfterItem(x[1..], sep, t);
      assert s[1..] == x[1..] + sep + t;
      assert [s[0]] + x[1..] == x;
    }
  }

  /** `sep.join` then `split(sep)` gives the list back when the list is not
      empty and every item is clean and free of the separator. */
  lemma {:induction false} SplitJoin(xs: seq<string>, sep: string)
    requires xs != [] && sep != []
    requires forall i :: 0 <= i < |xs| ==> !Contains(xs[i], sep) && CleanItem(xs[i], sep)
    ensures Split(Join(xs, sep), sep) == xs
    decreases |xs|
  {
    if |xs| == 1 {
      SplitNoSeparator(xs[0], sep);
    } else {
      SplitJoin(xs[1..], sep);
      SplitAfterItem(xs[0], sep, Join(xs[1..], sep));
      assert [xs[0]] + xs[1..] == xs;
    }
  }

  /** The joined string is empty exactly for `[]` and `[""]`. */
  lemma {:induction false} JoinEmpty(xs: seq<string>, sep: string)
    requires sep != []
    ensures Join(xs, sep) == [] <==> (xs == [] || xs == [[]])
  {
    if |xs| > 1 {
      assert |Join(xs, sep)| >= |sep|;
    }
  }

  /** Every item is a substring of the joined string. */
  lemma {:induction false} JoinContainsItems(xs: seq<string>, sep: string, i: nat)
    requires i < |xs|
    ensures Contains(Join(xs, sep), xs[i])
    decreases |xs|
  {
    if |xs| > 1 {
      if i == 0 {
        PrefixIsContained(xs[0], sep + Join(xs[1..], sep));
        assert Join(xs, sep) == xs[0] + (sep + Join(xs[1..], sep));
      } else {
        JoinContainsItems(xs[1..], sep, i - 1);
        ContainedInSuffix(xs[0] + sep, Join(xs[1..], sep), xs[i]);
      }
    } else {
      PrefixIsContained(xs[0], []);
      assert xs[0] + [] == xs[0];
    }
  }

  /** `lower`, one character at a time. */
  lemma {:induction false} LowerEach(s: string, t: string)
    requires |s| == |t| && forall i :: 0 <= i < |s| ==> LowerChar(s[i]) == t[i]
    ensures Lower(s) == t
  {
    if s != [] {
      LowerEach(s[1..], t[1..]);
    }
  }

  /** An occurrence at position `i` makes `sub in s` true. */
  lemma {:induction false} ContainsAt(s: string, sub: string, i: nat)
    requires i + |sub| <= |s| && s[i..i + |sub|] == sub
    ensures Contains(s, sub)
    decreases i
  {
    if i > 0 {
      assert s[1..][i - 1..i - 1 + |sub|] == sub;
      ContainsAt(s[1..], sub, i - 1);
    }
  }

  /** A string lacking one of the characters of `sub` does not contain it. */
  lemma {:induction false} MissingCharNotContained(s: string, sub: string, c: char)
    requires c in sub && c !in s
    ensures !Contains(s, sub)
    decreases |s|
  {
    if s != [] {
      MissingCharNotContained(s[1..], sub, c);
    }
  }

  lemma PrefixIsContained(a: string, b: string)
    ensures Contains(a + b, a)
  {
    assert (a + b)[..|a|] == a;
  }

  lemma {:induction false} ContainedInPrefix(a: string, b: string, sub: string)
    requires Contains(a, sub)
    ensures Contains(a + b, sub)
    decreases |a|
  {
    if StartsWith(a, sub) {
      assert (a + b)[..|sub|] == a[..|sub|];
    } else {
      ContainedInPrefix(a[1..], b, sub);
      assert (a + b)[1..] == a[1..] + b;
    }
  }

  lemma {:induction false} ContainedInSuffix(a: string, b: string, sub: string)
    requires Contains(b, sub)
    ensures Contains(a + b, sub)
    decreases |a|
  {
    if a != [] {
      ContainedInSuffix(a[1..], b, sub);
      assert (a + b)[1..] == a[1..] + b;
    } else {
      assert a + b == b;
    }
  }

  /** A pattern whose first character does not recur in it cannot start
      inside a non-empty prefix free of it and end in a copy after it. */
  predicate HeadUnique(pat: string) {
    pat != [] && forall i :: 1 <= i < |pat| ==> pat[i] != pat[0]
  }

  lemma NotStartingBefore(x: string, pat: string, t: string)
    requires HeadUnique(pat) && x != [] && !Contains(x, pat)
    ensures !StartsWith(x + pat + t, pat)
  {
    var s := x + pat + t;
    if |x| >= |pat| {
      assert s[..|pat|] == x[..|pat|];
    } else {
      assert s[|x|] == pat[0];
    }
  }

  lemma HeadThenTail(x: string, r: string)
    requires x != []
    ensures [x[0]] + (x[1..] + r) == x + r
  {
    assert [x[0]] + x[1..] == x;
  }

  /** Removal passes over a prefix free of a head-unique pattern unchanged. */
  lemma {:induction false} RemoveAllThen(x: string, pat: string, t: string)
    requires HeadUnique(pat) && !Contains(x, pat)
    ensures RemoveAll(x + pat + t, pat) == x + RemoveAll(t, pat)
    decreases |x|
  {
    var s := x + pat + t;
    if x == [] {
      assert s[..|pat|] == pat;
      assert s[|pat|..] == t;
    } else {
      NotStartingBefore(x, pat, t);
      NotContainsTail(x, pat);
      RemoveAllThen(x[1..], pat, t);
      assert s[1..] == x[1..] + pat + t;
      HeadThenTail(x, RemoveAll(t, pat));
    }
  }

  /** One or two trailing copies of a head-unique pattern are removed. */
  lemma RemoveAllTrailing(x: string, pat: string)
    requires HeadUnique(pat) && !Contains(x, pat)
    ensures RemoveAll(x + pat, pat) == x
    ensures RemoveAll(x + pat + pat, pat) == x
  {
    RemoveAllThen(x, pat, []);
    assert x + pat + [] == x + pat;
    RemoveAllThen(x, pat, pat);
    RemoveAllAfterPrefix(pat, []);
    assert pat + [] == pat;
    assert RemoveAll([], pat) == [];
    assert x + [] == x;
  }
}
