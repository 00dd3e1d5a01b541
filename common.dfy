/** Vocabulary shared by every module of the model: optional values and
    results, the few Python string operations the source relies on, and
    order-preserving list helpers (filter, first-appearance de-duplication,
    sums). */
module Common {

  /** A value that may be absent: a missing dictionary key, or JSON null. */
  datatype Option<+T> = None | Some(value: T) {
    function GetOr(default: T): T {
      match this
      case Some(v) => v
      case None => default
    }
  }

  /** The outcome of an operation that may raise in the source. */
  datatype Result<+T> = Ok(value: T) | Err(error: string)

  function Abs(x: int): nat { if x < 0 then -x else x }

  function Max(a: int, b: int): int { if a < b then b else a }

  function Min(a: int, b: int): int { if a < b then a else b }

  // ---------------------------------------------------------------------
  // Strings
  // ---------------------------------------------------------------------

  /** `str.lower()` on one character, for the ASCII letters. */
  function LowerChar(c: char): char {
    if 'A' <= c <= 'Z' then (c as int + 32) as char else c
  }

  /** `str.lower()`. */
  function Lower(s: string): (r: string)
    ensures |r| == |s|
    ensures forall i :: 0 <= i < |s| ==> r[i] == LowerChar(s[i])
  {
    if s == [] then [] else [LowerChar(s[0])] + Lower(s[1..])
  }

  /** `s.replace(pat, '')`: every non-overlapping occurrence of `pat`,
      scanning from the left, is removed. */
  function RemoveAll(s: string, pat: string): (r: string)
    requires pat != []
    ensures |r| <= |s|
    decreases |s|
  {
    if |s| < |pat| then s
    else if s[..|pat|] == pat then RemoveAll(s[|pat|..], pat)
    else [s[0]] + RemoveAll(s[1..], pat)
  }

  /** `a` is a prefix of `b`. */
  predicate IsPrefix(a: string, b: string) {
    |a| <= |b| && b[..|a|] == a
  }

  /** Python's `a in b` on two strings: `a` occurs somewhere in `b`. */
  predicate IsSubstring(a: string, b: string)
    decreases |b|
  {
    IsPrefix(a, b) || (b != [] && IsSubstring(a, b[1..]))
  }

  /** `a` occurs in `b` at position `i`. */
  predicate OccursAt(a: string, b: string, i: int) {
    0 <= i <= |b| - |a| && b[i..i + |a|] == a
  }

  /** The recursive substring test agrees with the positional definition. */
  lemma {:induction false} SubstringAt(a: string, b: string)
    ensures IsSubstring(a, b) <==> exists i :: OccursAt(a, b, i)
    decreases |b|
  {
    if IsPrefix(a, b) {
      assert OccursAt(a, b, 0);
    } else if b != [] {
      SubstringAt(a, b[1..]);
      if IsSubstring(a, b[1..]) {
        var i :| OccursAt(a, b[1..], i);
        assert b[i + 1..i + 1 + |a|] == b[1..][i..i + |a|];
        assert OccursAt(a, b, i + 1);
      }
      if exists i :: OccursAt(a, b, i) {
        var i :| OccursAt(a, b, i);
        if i > 0 {
          assert b[1..][i - 1..i - 1 + |a|] == b[i..i + |a|];
          assert OccursAt(a, b[1..], i - 1);
        }
      }
    }
  }

  /** The empty string is a substring of every string, so an empty
      detection type matches every detector name. */
  lemma EmptyIsSubstring(b: string)
    ensures IsSubstring([], b)
  {
  }

  /** The characters `str.isspace()` accepts, which are the separators of
      `str.split()` with no argument. */
  predicate IsSpace(c: char) {
    c == ' ' || c == '\t' || c == '\n' || c == '\r' || c == '\U{0B}' || c == '\U{0C}'
    || ('\U{1C}' <= c <= '\U{1F}') || c == '\U{85}' || c == '\U{A0}' || c == '\U{1680}'
    || ('\U{2000}' <= c <= '\U{200A}') || c == '\U{2028}' || c == '\U{2029}' || c == '\U{202F}'
    || c == '\U{205F}' || c == '\U{3000}'
  }

  /** Number of words that start in `s`, where `afterSpace` says whether the
      character before `s` was a separator (or `s` starts the string). */
  function WordStarts(s: string, afterSpace: bool): nat
    decreases |s|
  {
    if s == [] then 0
    else if IsSpace(s[0]) then WordStarts(s[1..], true)
    else (if afterSpace then 1 else 0) + WordStarts(s[1..], false)
  }

  /** `len(s.split())`: the number of maximal runs of non-space characters. */
  function WordCount(s: string): nat {
    WordStarts(s, true)
  }

  predicate AllSpace(s: string) {
    forall i :: 0 <= i < |s| ==> IsSpace(s[i])
  }

  /** `s.strip()`: `s` without its leading and trailing separators. */
  function Strip(s: string): (r: string)
    ensures r == "" <==> AllSpace(s)
    ensures r != "" ==> !IsSpace(r[0]) && !IsSpace(r[|r| - 1])
    decreases |s|
  {
    if s == [] then s
    else if IsSpace(s[0]) then Strip(s[1..])
    else if IsSpace(s[|s| - 1]) then Strip(s[..|s| - 1])
    else s
  }

  /** What `strip` removes is a run of separators at each end: the result is
      a slice of `s` with only separators before and after it. */
  lemma StripIsSlice(s: string)
    ensures exists i, j :: 0 <= i <= j <= |s| && Strip(s) == s[i..j] && AllSpace(s[..i]) && AllSpace(s[j..])
  {
    var i, j := StripBounds(s);
  }

  /** The bounds of the slice `strip` keeps. */
  lemma {:induction false} StripBounds(s: string) returns (i: nat, j: nat)
    ensures i <= j <= |s| && Strip(s) == s[i..j] && AllSpace(s[..i]) && AllSpace(s[j..])
    decreases |s|
  {
    if s == [] {
      i, j := 0, 0;
    } else if IsSpace(s[0]) {
      assert Strip(s) == Strip(s[1..]);
      var i', j' := StripBounds(s[1..]);
      SliceAfterFront(s, i', j');
      i, j := i' + 1, j' + 1;
    } else if IsSpace(s[|s| - 1]) {
      assert Strip(s) == Strip(s[..|s| - 1]);
      i, j := StripBounds(s[..|s| - 1]);
      SliceBeforeBack(s, i, j);
    } else {
      i, j := 0, |s|;
      assert s[0..|s|] == s;
    }
  }

  /** A slice of `s[1..]` framed by separators, with `s[0]` a separator, is
      a slice of `s` framed by separators. */
  lemma SliceAfterFront(s: string, i: nat, j: nat)
    requires s != [] && IsSpace(s[0]) && i <= j <= |s| - 1
    requires AllSpace(s[1..][..i]) && AllSpace(s[1..][j..])
    ensures s[1..][i..j] == s[i + 1..j + 1] && AllSpace(s[..i + 1]) && AllSpace(s[j + 1..])
  {
    assert s[1..][j..] == s[j + 1..];
    assert s[..i + 1] == [s[0]] + s[1..][..i];
    AllSpaceConcat([s[0]], s[1..][..i]);
  }

  /** A slice of `s[..|s| - 1]` framed by separators, with the last
      character a separator, is a slice of `s` framed by separators. */
  lemma SliceBeforeBack(s: string, i: nat, j: nat)
    requires s != [] && IsSpace(s[|s| - 1]) && i <= j <= |s| - 1
    requires AllSpace(s[..|s| - 1][..i]) && AllSpace(s[..|s| - 1][j..])
    ensures s[..|s| - 1][i..j] == s[i..j] && AllSpace(s[..i]) && AllSpace(s[j..])
  {
    var p := s[..|s| - 1];
    assert p[..i] == s[..i];
    assert s[j..] == p[j..] + [s[|s| - 1]];
    AllSpaceConcat(p[j..], [s[|s| - 1]]);
  }

  lemma AllSpaceConcat(a: string, b: string)
    requires AllSpace(a) && AllSpace(b)
    ensures AllSpace(a + b)
  {
  }

  lemma {:induction false} WordStartsZero(s: string, afterSpace: bool)
    ensures afterSpace ==> (WordStarts(s, afterSpace) == 0 <==> AllSpace(s))
    decreases |s|
  {
    if s != [] && afterSpace {
      WordStartsZero(s[1..], true);
      if IsSpace(s[0]) {
        if AllSpace(s[1..]) {
          forall i | 0 <= i < |s| ensures IsSpace(s[i]) {
            if i > 0 { assert s[i] == s[1..][i - 1]; }
          }
        }
        if AllSpace(s) {
          forall i | 0 <= i < |s[1..]| ensures IsSpace(s[1..][i]) {
            assert s[1..][i] == s[i + 1];
          }
        }
      } else {
        assert !IsSpace(s[0]);
      }
    }
  }

  /** A prompt has no words exactly when it is empty or all separators; the
      word count never exceeds the number of characters. */
  lemma {:induction false} WordCountFacts(s: string)
    ensures WordCount(s) == 0 <==> AllSpace(s)
    ensures WordCount(s) <= |s|
  {
    WordStartsZero(s, true);
    WordStartsBound(s, true);
  }

  lemma {:induction false} WordStartsBound(s: string, afterSpace: bool)
    ensures WordStarts(s, afterSpace) <= |s|
    decreases |s|
  {
    if s != [] {
      WordStartsBound(s[1..], true);
      WordStartsBound(s[1..], false);
    }
  }

  /** `s[:n]` in Python: the first `n` characters, or all of them. */
  function Take(s: string, n: nat): (r: string)
    ensures |r| == Min(|s|, n) && IsPrefix(r, s)
  {
    if |s| <= n then s else s[..n]
  }

  // ---------------------------------------------------------------------
  // Order-preserving list helpers
  // ---------------------------------------------------------------------

  /** `[x for x in s if p(x)]`. */
  function Filter<T>(s: seq<T>, p: T -> bool): (r: seq<T>)
    ensures |r| <= |s|
    ensures forall x :: x in r ==> x in s && p(x)
  {
    if s == [] then [] else
      var init := Filter(s[..|s| - 1], p);
      if p(s[|s| - 1]) then init + [s[|s| - 1]] else init
  }

  lemma {:induction false} FilterAppend<T>(a: seq<T>, b: seq<T>, p: T -> bool)
    ensures Filter(a + b, p) == Filter(a, p) + Filter(b, p)
    decreases |b|
  {
    if b == [] {
      assert a + b == a;
    } else {
      var b' := b[..|b| - 1];
      assert (a + b)[..|a + b| - 1] == a + b';
      FilterAppend(a, b', p);
    }
  }

  lemma {:induction false} FilterComplete<T>(s: seq<T>, p: T -> bool)
    ensures forall x :: x in s && p(x) ==> x in Filter(s, p)
  {
    if s != [] {
      FilterComplete(s[..|s| - 1], p);
      forall x | x in s && p(x) ensures x in Filter(s, p) {
        if x != s[|s| - 1] {
          assert x in s[..|s| - 1];
        }
      }
    }
  }

  /** `list(dict.fromkeys(s))`: the distinct elements of `s`, each at the
      place of its first appearance. */
  function Dedup<T(==)>(s: seq<T>): seq<T> {
    if s == [] then [] else
      var init := Dedup(s[..|s| - 1]);
      if s[|s| - 1] in init then init else init + [s[|s| - 1]]
  }

  predicate Distinct<T(==)>(s: seq<T>) {
    forall i, j :: 0 <= i < j < |s| ==> s[i] != s[j]
  }

  /** `Dedup` keeps exactly the elements of its input, once each, and the
      first element of the input stays first. */
  lemma {:induction false} DedupFacts<T>(s: seq<T>)
    ensures Distinct(Dedup(s))
    ensures forall x :: x in Dedup(s) <==> x in s
    ensures |Dedup(s)| <= |s|
    ensures s != [] ==> Dedup(s) != [] && Dedup(s)[0] == s[0]
  {
    if s != [] {
      var init := s[..|s| - 1];
      DedupFacts(init);
      assert forall x :: x in s <==> x in init || x == s[|s| - 1];
      if init == [] {
        assert Dedup(init) == [];
      }
    }
  }

  /** Sum of `f` over a sequence. */
  function SumOf<T>(s: seq<T>, f: T -> int): int {
    if s == [] then 0 else SumOf(s[..|s| - 1], f) + f(s[|s| - 1])
  }

  lemma {:induction false} SumOfAppend<T>(a: seq<T>, b: seq<T>, f: T -> int)
    ensures SumOf(a + b, f) == SumOf(a, f) + SumOf(b, f)
    decreases |b|
  {
    if b == [] {
      assert a + b == a;
    } else {
      var b' := b[..|b| - 1];
      assert (a + b)[..|a + b| - 1] == a + b';
      SumOfAppend(a, b', f);
    }
  }

  lemma {:induction false} SumOfNonNegative<T>(s: seq<T>, f: T -> int)
    requires forall x :: x in s ==> f(x) >= 0
    ensures SumOf(s, f) >= 0
  {
    if s != [] {
      SumOfNonNegative(s[..|s| - 1], f);
    }
  }

  /** Sums of two functions that agree on every element are equal. */
  lemma {:induction false} SumOfSame<T>(s: seq<T>, f: T -> int, g: T -> int)
    requires forall x :: x in s ==> f(x) == g(x)
    ensures SumOf(s, f) == SumOf(s, g)
  {
    if s != [] {
      SumOfSame(s[..|s| - 1], f, g);
    }
  }

  /** Sum of `f` over a sequence of real-valued items (Python's float sums). */
  function SumReal<T>(s: seq<T>, f: T -> real): real {
    if s == [] then 0.0 else SumReal(s[..|s| - 1], f) + f(s[|s| - 1])
  }

  /** Changing `f` at one element `x` of a duplicate-free sequence changes
      the sum by exactly the change at `x`. */
  lemma {:induction false} SumOfPointwise<T>(s: seq<T>, f: T -> int, g: T -> int, x: T)
    requires Distinct(s)
    requires forall y :: y in s && y != x ==> f(y) == g(y)
    ensures SumOf(s, g) == SumOf(s, f) + (if x in s then g(x) - f(x) else 0)
  {
    if s != [] {
      var init := s[..|s| - 1];
      assert forall y :: y in init ==> y in s;
      SumOfPointwise(init, f, g, x);
      if s[|s| - 1] == x {
        assert x !in init;
      }
    }
  }
}
