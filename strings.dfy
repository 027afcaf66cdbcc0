/** The JavaScript string operations the components rely on: the `<`
    comparison (also the order `Array.prototype.sort` uses by default),
    `trim`, `toLowerCase`, `includes`, and the default sort of a list of
    strings. */
module Strings {

  // ---------------------------------------------------------------------
  // Order
  // ---------------------------------------------------------------------

  /** `a < b` on JavaScript strings: lexicographic by character code, a
      proper prefix coming first. */
  predicate Lt(a: string, b: string)
    decreases |a|
  {
    if |a| == 0 then |b| > 0
    else if |b| == 0 then false
    else if a[0] != b[0] then a[0] < b[0]
    else Lt(a[1..], b[1..])
  }

  predicate Le(a: string, b: string) {
    a == b || Lt(a, b)
  }

  lemma {:induction false} LtIrreflexive(a: string)
    ensures !Lt(a, a)
  {
    if |a| > 0 {
      LtIrreflexive(a[1..]);
    }
  }

  lemma {:induction false} LtTransitive(a: string, b: string, c: string)
    requires Lt(a, b) && Lt(b, c)
    ensures Lt(a, c)
  {
    if |a| > 0 && |b| > 0 && |c| > 0 && a[0] == b[0] && b[0] == c[0] {
      LtTransitive(a[1..], b[1..], c[1..]);
    }
  }

  /** Any two different strings are ordered one way or the other. */
  lemma {:induction false} LtTrichotomy(a: string, b: string)
    ensures Lt(a, b) || a == b || Lt(b, a)
  {
    if |a| > 0 && |b| > 0 && a[0] == b[0] {
      LtTrichotomy(a[1..], b[1..]);
      if a[1..] == b[1..] {
        assert a == [a[0]] + a[1..] && b == [b[0]] + b[1..];
      }
    }
  }

  lemma LtAsymmetric(a: string, b: string)
    requires Lt(a, b)
    ensures !Lt(b, a)
  {
    if Lt(b, a) {
      LtTransitive(a, b, a);
      LtIrreflexive(a);
    }
  }

  lemma LeTotal(a: string, b: string)
    ensures Le(a, b) || Le(b, a)
  {
    LtTrichotomy(a, b);
  }

  lemma LeAntisymmetric(a: string, b: string)
    requires Le(a, b) && Le(b, a)
    ensures a == b
  {
    if a != b {
      LtAsymmetric(a, b);
    }
  }

  lemma LeTransitive(a: string, b: string, c: string)
    requires Le(a, b) && Le(b, c)
    ensures Le(a, c)
  {
    if a != b && b != c {
      LtTransitive(a, b, c);
    }
  }

  // ---------------------------------------------------------------------
  // trim
  // ---------------------------------------------------------------------

  /** The characters `String.prototype.trim` strips: white space and line
      terminators. */
  predicate IsWhitespace(c: char) {
    c == ' ' || c == '\t' || c == '\n' || c == '\r'
    || c as int == 0x0B || c as int == 0x0C || c as int == 0xA0
    || c as int == 0x1680 || (0x2000 <= c as int <= 0x200A)
    || c as int == 0x2028 || c as int == 0x2029 || c as int == 0x202F
    || c as int == 0x205F || c as int == 0x3000 || c as int == 0xFEFF
  }

  predicate AllWhitespace(s: string) {
    forall i :: 0 <= i < |s| ==> IsWhitespace(s[i])
  }

  /** The first position at or after `k` that is not white space, or the
      end of `s`. */
  function SkipStart(s: string, k: nat): (lo: nat)
    requires k <= |s|
    ensures k <= lo <= |s|
    ensures forall j :: k <= j < lo ==> IsWhitespace(s[j])
    ensures lo < |s| ==> !IsWhitespace(s[lo])
    decreases |s| - k
  {
    if k < |s| && IsWhitespace(s[k]) then SkipStart(s, k + 1) else k
  }

  /** The end of `s[lo..hi]` once white space is dropped from its right. */
  function SkipEnd(s: string, lo: nat, hi: nat): (r: nat)
    requires lo <= hi <= |s|
    ensures lo <= r <= hi
    ensures forall j :: r <= j < hi ==> IsWhitespace(s[j])
    ensures r > lo ==> !IsWhitespace(s[r - 1])
    decreases hi
  {
    if hi > lo && IsWhitespace(s[hi - 1]) then SkipEnd(s, lo, hi - 1) else hi
  }

  /** `s.trim()`: `s` without the white space at either end. */
  function Trim(s: string): (r: string)
    ensures |r| <= |s|
    ensures |r| > 0 ==> !IsWhitespace(r[0]) && !IsWhitespace(r[|r| - 1])
  {
    var lo := SkipStart(s, 0);
    s[lo..SkipEnd(s, lo, |s|)]
  }

  /** What `trim` removes is white space at either end and nothing else:
      the result is a slice of `s` with only white space before and after
      it. */
  lemma TrimDropsEndWhitespace(s: string)
    ensures exists lo, hi :: 0 <= lo <= hi <= |s| && Trim(s) == s[lo..hi] &&
                             AllWhitespace(s[..lo]) && AllWhitespace(s[hi..])
  {
    var lo := SkipStart(s, 0);
    var hi := SkipEnd(s, lo, |s|);
    assert Trim(s) == s[lo..hi] && AllWhitespace(s[..lo]) && AllWhitespace(s[hi..]);
  }

  /** `!s.trim()`: the string is empty or white space only. */
  predicate IsBlank(s: string) {
    AllWhitespace(s)
  }

  /** A string is blank exactly when trimming leaves nothing, which is how
      the source tests it. */
  lemma BlankIffTrimsToEmpty(s: string)
    ensures IsBlank(s) <==> Trim(s) == []
  {
  }

  /** Trimming a non-blank string leaves a non-blank string. */
  lemma TrimNotBlank(s: string)
    requires !IsBlank(s)
    ensures !IsBlank(Trim(s))
  {
  }


  // ---------------------------------------------------------------------
  // toLowerCase
  // ---------------------------------------------------------------------

  /** Lower-case mapping of one character, for ASCII and Latin-1 letters. */
  function LowerChar(c: char): (r: char)
  {
    if 'A' <= c <= 'Z' || (0xC0 <= c as int <= 0xDE && c as int != 0xD7)
    then (c as int + 32) as char
    else c
  }

  function ToLower(s: string): (r: string)
    ensures |r| == |s|
    ensures forall i :: 0 <= i < |s| ==> r[i] == LowerChar(s[i])
  {
    if s == [] then [] else [LowerChar(s[0])] + ToLower(s[1..])
  }

  /** Lower-casing twice is lower-casing once. */
  lemma ToLowerIdempotent(s: string)
    ensures ToLower(ToLower(s)) == ToLower(s)
  {
  }

  // ---------------------------------------------------------------------
  // includes
  // ---------------------------------------------------------------------

  /** `s.includes(sub)`. */
  predicate Contains(s: string, sub: string): (r: bool)
    ensures r ==> |sub| <= |s|
    decreases |s|
  {
    sub <= s || (|s| > 0 && Contains(s[1..], sub))
  }

  /** `sub` occurs in `s` starting at index `i`. */
  predicate OccursAt(s: string, sub: string, i: int) {
    0 <= i <= |s| - |sub| && s[i..i + |sub|] == sub
  }

  /** `includes` holds exactly when `sub` occurs at some position of `s`. */
  lemma ContainsAt(s: string, sub: string)
    ensures Contains(s, sub) <==> exists i :: OccursAt(s, sub, i)
  {
    if Contains(s, sub) {
      var i := ContainsOccurs(s, sub);
    }
    if exists i :: OccursAt(s, sub, i) {
      var i :| OccursAt(s, sub, i);
      OccursContains(s, sub, i);
    }
  }

  /** Where `includes` finds `sub`. */
  lemma {:induction false} ContainsOccurs(s: string, sub: string) returns (i: int)
    requires Contains(s, sub)
    ensures OccursAt(s, sub, i)
    decreases |s|
  {
    if sub <= s {
      i := 0;
      assert s[0..|sub|] == sub;
    } else {
      var j := ContainsOccurs(s[1..], sub);
      i := j + 1;
      assert s[1..][j..j + |sub|] == s[i..i + |sub|];
    }
  }

  /** An occurrence anywhere makes `includes` hold. */
  lemma {:induction false} OccursContains(s: string, sub: string, i: int)
    requires OccursAt(s, sub, i)
    ensures Contains(s, sub)
    decreases i
  {
    if i == 0 {
      assert s[..|sub|] == sub;
    } else {
      assert s[1..][i - 1..i - 1 + |sub|] == s[i..i + |sub|];
      OccursContains(s[1..], sub, i - 1);
    }
  }

  /** Every string includes the empty string. */
  lemma ContainsEmpty(s: string)
    ensures Contains(s, "")
  {
  }

  // ---------------------------------------------------------------------
  // The default sort of a list of strings
  // ---------------------------------------------------------------------

  ghost predicate Sorted(s: seq<string>) {
    forall i, j :: 0 <= i < j < |s| ==> Le(s[i], s[j])
  }

  /** Sorted with no repeated element. */
  ghost predicate StrictlySorted(s: seq<string>) {
    forall i, j :: 0 <= i < j < |s| ==> Lt(s[i], s[j])
  }

  /** A string no greater than the head of a sorted list can go in front. */
  lemma SortedCons(a: string, s: seq<string>)
    requires Sorted(s) && (s != [] ==> Le(a, s[0]))
    ensures Sorted([a] + s)
  {
    var r := [a] + s;
    forall i, j | 0 <= i < j < |r| ensures Le(r[i], r[j]) {
      if i == 0 {
        assert r[j] == s[j - 1];
        if j > 1 { LeTransitive(a, s[0], s[j - 1]); }
      } else {
        assert r[i] == s[i - 1] && r[j] == s[j - 1];
      }
    }
  }

  function Insert(x: string, s: seq<string>): (r: seq<string>)
    requires Sorted(s)
    ensures |r| == |s| + 1 && (r[0] == x || (s != [] && r[0] == s[0]))
    ensures Sorted(r)
    ensures multiset(r) == multiset(s) + multiset{x}
  {
    if s == [] then [x]
    else if Le(x, s[0]) then
      SortedCons(x, s);
      [x] + s
    else
      SortedTail(s);
      var rest := Insert(x, s[1..]);
      InsertBehindHead(x, s, rest);
      assert s == [s[0]] + s[1..];
      [s[0]] + rest
  }

  /** When `x` goes after the head, the head stays in front of the rest. */
  lemma InsertBehindHead(x: string, s: seq<string>, rest: seq<string>)
    requires Sorted(s) && s != [] && !Le(x, s[0]) && Sorted(rest)
    requires |rest| == |s| && (rest[0] == x || (|s| > 1 && rest[0] == s[1]))
    ensures Sorted([s[0]] + rest)
  {
    LeTotal(x, s[0]);
    SortedCons(s[0], rest);
  }

  /** `list.sort()` with the default comparison: a sorted permutation. */
  function SortStrings(s: seq<string>): (r: seq<string>)
    ensures Sorted(r)
    ensures multiset(r) == multiset(s)
  {
    if s == [] then []
    else
      assert s == s[..|s| - 1] + [s[|s| - 1]];
      Insert(s[|s| - 1], SortStrings(s[..|s| - 1]))
  }

  /** The head of a sorted list is its least element. */
  lemma SortedHeadLeast(s: seq<string>, x: string)
    requires Sorted(s) && x in s
    ensures Le(s[0], x)
  {
    var k :| 0 <= k < |s| && s[k] == x;
    if k == 0 { } else { assert Le(s[0], s[k]); }
  }

  /** Dropping the head of a sorted list leaves a sorted list of the other
      elements. */
  lemma SortedTail(s: seq<string>)
    requires Sorted(s) && s != []
    ensures Sorted(s[1..])
    ensures multiset(s[1..]) == multiset(s) - multiset{s[0]}
  {
    assert s == [s[0]] + s[1..];
  }

  /** A sorted list is determined by its elements. */
  lemma {:induction false} SortedUnique(a: seq<string>, b: seq<string>)
    requires Sorted(a) && Sorted(b)
    requires multiset(a) == multiset(b)
    ensures a == b
  {
    if a != [] {
      assert |b| == |a| by { assert |multiset(b)| == |multiset(a)|; }
      assert a[0] in multiset(b) && b[0] in multiset(a);
      SortedHeadLeast(b, a[0]);
      SortedHeadLeast(a, b[0]);
      LeAntisymmetric(a[0], b[0]);
      SortedTail(a);
      SortedTail(b);
      SameHeadSameTail(a, b);
      SortedUnique(a[1..], b[1..]);
    }
  }

  /** Two lists with the same elements and the same head have tails with
      the same elements. */
  lemma SameHeadSameTail<T>(a: seq<T>, b: seq<T>)
    requires a != [] && b != [] && a[0] == b[0]
    requires multiset(a) == multiset(b)
    ensures multiset(a[1..]) == multiset(b[1..])
  {
    assert a == [a[0]] + a[1..] && b == [b[0]] + b[1..];
    assert multiset(a[1..]) == multiset(a) - multiset{a[0]};
    assert multiset(b[1..]) == multiset(b) - multiset{b[0]};
  }

  /** `list.filter(t => t !== x)`. */
  function RemoveAll(s: seq<string>, x: string): (r: seq<string>)
    ensures x !in r
    ensures forall y :: y != x ==> multiset(r)[y] == multiset(s)[y]
    ensures |r| <= |s|
    ensures forall y :: y in r ==> y in s
    ensures SubsequenceOf(r, s)
  {
    if s == [] then []
    else
      var rest := RemoveAll(s[1..], x);
      assert s == [s[0]] + s[1..];
      if s[0] == x then rest
      else
        assert ([s[0]] + rest)[1..] == rest;
        [s[0]] + rest
  }

  lemma {:induction false} RemoveAllSorted(s: seq<string>, x: string)
    requires Sorted(s)
    ensures Sorted(RemoveAll(s, x))
  {
    if s != [] {
      RemoveAllSorted(s[1..], x);
      var rest := RemoveAll(s[1..], x);
      forall y | y in rest ensures Le(s[0], y) {
        var k :| 0 <= k < |s[1..]| && s[1..][k] == y;
        assert s[k + 1] == y;
      }
    }
  }

  /** Removing an element that is not there changes nothing. */
  lemma {:induction false} RemoveAllAbsent(s: seq<string>, x: string)
    requires x !in s
    ensures RemoveAll(s, x) == s
  {
    if s != [] {
      RemoveAllAbsent(s[1..], x);
    }
  }

  lemma StrictlySortedIsSorted(s: seq<string>)
    requires StrictlySorted(s)
    ensures Sorted(s)
  {
  }

  /** In a strictly sorted list every element occurs once. */
  lemma {:induction false} StrictlySortedOccursOnce(s: seq<string>, x: string)
    requires StrictlySorted(s) && x in s
    ensures multiset(s)[x] == 1
  {
    assert s == [s[0]] + s[1..];
    if s[0] == x {
      if x in s[1..] {
        var k :| 0 <= k < |s[1..]| && s[1..][k] == x;
        assert Lt(s[0], s[k + 1]);
        LtIrreflexive(x);
      }
    } else {
      StrictlySortedOccursOnce(s[1..], x);
    }
  }

  /** In a strictly sorted list no element occurs twice. */
  lemma StrictlySortedCounts(s: seq<string>)
    requires StrictlySorted(s)
    ensures forall y :: multiset(s)[y] <= 1
  {
    forall y ensures multiset(s)[y] <= 1 {
      if y in s {
        StrictlySortedOccursOnce(s, y);
      }
    }
  }

  /** Two equal entries make an element occur at least twice. */
  lemma TwoOccurrences(s: seq<string>, i: nat, j: nat)
    requires i < j < |s| && s[i] == s[j]
    ensures multiset(s)[s[i]] >= 2
  {
    assert s == s[..i] + [s[i]] + s[i + 1..j] + [s[j]] + s[j + 1..];
  }

  /** A sorted list in which nothing occurs twice is strictly sorted. */
  lemma SortedDistinctIsStrict(s: seq<string>)
    requires Sorted(s)
    requires forall y :: multiset(s)[y] <= 1
    ensures StrictlySorted(s)
  {
    forall i, j | 0 <= i < j < |s| ensures Lt(s[i], s[j]) {
      if s[i] == s[j] {
        TwoOccurrences(s, i, j);
      }
    }
  }

  // ---------------------------------------------------------------------
  // Filters
  // ---------------------------------------------------------------------

  /** `r` is `s` with some elements left out, the rest in the same order:
      what `Array.prototype.filter` returns. */
  ghost predicate SubsequenceOf<T>(r: seq<T>, s: seq<T>)
    decreases |s|
  {
    if r == [] then true
    else if s == [] then false
    else (r[0] == s[0] && SubsequenceOf(r[1..], s[1..])) || SubsequenceOf(r, s[1..])
  }

  // ---------------------------------------------------------------------
  // Number to decimal text
  // ---------------------------------------------------------------------

  predicate IsDigit(c: char) {
    '0' <= c <= '9'
  }

  /** The value of a decimal digit character. */
  function DigitValue(c: char): int {
    c as int - '0' as int
  }

  /** The decimal text of a non-negative integer, as a template literal
      writes it. */
  function NatToString(n: nat): (r: string)
    ensures |r| > 0
    ensures forall i :: 0 <= i < |r| ==> IsDigit(r[i])
  {
    var d := ['0' + (n % 10) as char];
    if n < 10 then d else NatToString(n / 10) + d
  }
}
