/**
 * String helpers that stand for the parts of Go's `strings`, `sort`, `fmt`
 * and `unicode` packages the generator relies on. Character classification
 * is restricted to ASCII.
 */
module Text {

  // ---------------------------------------------------------------------
  // ASCII classification and case mapping (unicode.IsLetter, IsDigit,
  // IsLower, ToUpper, ToLower restricted to ASCII)
  // ---------------------------------------------------------------------

  predicate IsLower(c: char) { 'a' <= c <= 'z' }

  predicate IsUpper(c: char) { 'A' <= c <= 'Z' }

  predicate IsLetter(c: char) { IsLower(c) || IsUpper(c) }

  predicate IsDigit(c: char) { '0' <= c <= '9' }

  function ToUpperChar(c: char): (r: char)
    ensures IsLower(c) ==> IsUpper(r) && r as int == c as int - 32
    ensures !IsLower(c) ==> r == c
  {
    if IsLower(c) then (c as int - 32) as char else c
  }

  function ToLowerChar(c: char): (r: char)
    ensures IsUpper(c) ==> IsLower(r) && r as int == c as int + 32
    ensures !IsUpper(c) ==> r == c
  {
    if IsUpper(c) then (c as int + 32) as char else c
  }

  /** strings.ToUpper: every character mapped on its own, so the length is kept. */
  function Upper(s: string): (r: string)
    ensures |r| == |s|
    ensures forall i :: 0 <= i < |s| ==> r[i] == ToUpperChar(s[i])
  {
    if s == [] then [] else [ToUpperChar(s[0])] + Upper(s[1..])
  }

  /** strings.ToLower. */
  function Lower(s: string): (r: string)
    ensures |r| == |s|
    ensures forall i :: 0 <= i < |s| ==> r[i] == ToLowerChar(s[i])
  {
    if s == [] then [] else [ToLowerChar(s[0])] + Lower(s[1..])
  }

  lemma LowerAppend(a: string, b: string)
    ensures Lower(a + b) == Lower(a) + Lower(b)
  {
  }

  lemma UpperUpper(s: string)
    ensures Upper(Upper(s)) == Upper(s)
  {
  }

  lemma LowerUpper(s: string)
    ensures Lower(Upper(s)) == Lower(s)
  {
  }

  lemma LowerOfCaseChange(c: char)
    ensures ToLowerChar(ToUpperChar(c)) == ToLowerChar(c)
    ensures ToLowerChar(ToLowerChar(c)) == ToLowerChar(c)
  {
  }

  // ---------------------------------------------------------------------
  // strings.Replace(s, pat, rep, -1) and strings.Join
  // ---------------------------------------------------------------------

  /** Concatenation is associative (a small context in which to prove it). */
  lemma AppendAssoc<T>(a: seq<T>, b: seq<T>, c: seq<T>)
    ensures a + (b + c) == (a + b) + c
  {
  }

  /**
   * Replaces every non-overlapping occurrence of `pat` in `s`, scanning from
   * the left, as strings.Replace does with a negative count.
   */
  function ReplaceAll(s: string, pat: string, rep: string): (r: string)
    requires |pat| > 0
    decreases |s|
  {
    if |s| < |pat| then s
    else if s[..|pat|] == pat then rep + ReplaceAll(s[|pat|..], pat, rep)
    else [s[0]] + ReplaceAll(s[1..], pat, rep)
  }

  /** strings.Join. */
  function Join(parts: seq<string>, sep: string): (r: string)
  {
    if |parts| == 0 then ""
    else if |parts| == 1 then parts[0]
    else parts[0] + sep + Join(parts[1..], sep)
  }

  /** The pieces of `s` between occurrences of `c` (strings.Split with a one-rune separator). */
  function Split(s: string, c: char): (r: seq<string>)
    ensures |r| > 0
  {
    if s == [] then [[]]
    else
      var rest := Split(s[1..], c);
      if s[0] == c then [[]] + rest else [[s[0]] + rest[0]] + rest[1..]
  }

  /** Each string of `xs` behind the prefix `p`. */
  function Prefixed(p: string, xs: seq<string>): (r: seq<string>)
    ensures |r| == |xs|
    ensures forall i :: 0 <= i < |xs| ==> r[i] == p + xs[i]
  {
    if xs == [] then [] else [p + xs[0]] + Prefixed(p, xs[1..])
  }

  /** Splitting at `c` a piece free of `c` followed by more text. */
  lemma {:induction false} SplitAppend(a: string, b: string, c: char)
    requires c !in a
    ensures Split(a + [c] + b, c) == [a] + Split(b, c)
  {
    if a == [] {
      assert a + [c] + b == [c] + b && ([c] + b)[1..] == b;
    } else {
      assert (a + [c] + b)[0] == a[0] && (a + [c] + b)[1..] == a[1..] + [c] + b;
      SplitAppend(a[1..], b, c);
      assert [a[0]] + a[1..] == a;
    }
  }

  lemma {:induction false} SplitNone(a: string, c: char)
    requires c !in a
    ensures Split(a, c) == [a]
  {
    if a != [] {
      SplitNone(a[1..], c);
      assert [a[0]] + a[1..] == a;
    }
  }

  /**
   * Join and Split are inverse: joining pieces free of the separator's first
   * rune `c`, then splitting at `c`, gives the pieces back, all but the first
   * behind the rest of the separator.
   */
  lemma {:induction false} SplitJoin(xs: seq<string>, sep: string, c: char)
    requires |xs| > 0 && |sep| > 0 && sep[0] == c && c !in sep[1..]
    requires forall i :: 0 <= i < |xs| ==> c !in xs[i]
    ensures Split(Join(xs, sep), c) == [xs[0]] + Prefixed(sep[1..], xs[1..])
    decreases |xs|
  {
    if |xs| == 1 {
      SplitNone(xs[0], c);
    } else {
      var tail := sep[1..];
      var ys := [tail + xs[1]] + xs[2..];
      assert c !in tail + xs[1];
      forall i | 0 <= i < |ys| ensures c !in ys[i] {
        if i > 0 { assert ys[i] == xs[i + 1]; }
      }
      assert Join(ys, sep) == tail + Join(xs[1..], sep) by {
        if |xs| == 2 {
          assert ys == [tail + xs[1]] && xs[1..] == [xs[1]];
        } else {
          assert ys[1..] == xs[2..] && xs[1..][1..] == xs[2..];
        }
      }
      assert sep == [c] + tail;
      assert Join(xs, sep) == xs[0] + [c] + Join(ys, sep);
      SplitAppend(xs[0], Join(ys, sep), c);
      SplitJoin(ys, sep, c);
      assert ys[1..] == xs[2..];
      assert Prefixed(tail, xs[1..]) == [tail + xs[1]] + Prefixed(tail, xs[2..]);
    }
  }

  // ---------------------------------------------------------------------
  // Byte-wise string order and sort.Strings
  // ---------------------------------------------------------------------

  /** Lexicographic order on code points (for UTF-8 this is Go's byte order). */
  predicate LessEq(a: string, b: string)
    decreases |a|
  {
    if a == [] then true
    else if b == [] then false
    else if a[0] != b[0] then a[0] < b[0]
    else LessEq(a[1..], b[1..])
  }

  lemma {:induction false} LessEqReflexive(a: string)
    ensures LessEq(a, a)
    decreases |a|
  {
    if a != [] {
      LessEqReflexive(a[1..]);
    }
  }

  lemma {:induction false} LessEqTotal(a: string, b: string)
    ensures LessEq(a, b) || LessEq(b, a)
    decreases |a|
  {
    if a != [] && b != [] && a[0] == b[0] {
      LessEqTotal(a[1..], b[1..]);
    }
  }

  lemma {:induction false} LessEqTransitive(a: string, b: string, c: string)
    requires LessEq(a, b) && LessEq(b, c)
    ensures LessEq(a, c)
    decreases |a|
  {
    if a != [] && b != [] && c != [] && a[0] == b[0] && b[0] == c[0] {
      LessEqTransitive(a[1..], b[1..], c[1..]);
    }
  }

  lemma {:induction false} LessEqAntisymmetric(a: string, b: string)
    requires LessEq(a, b) && LessEq(b, a)
    ensures a == b
    decreases |a|
  {
    if a != [] && b != [] {
      LessEqAntisymmetric(a[1..], b[1..]);
      assert a == [a[0]] + a[1..] && b == [b[0]] + b[1..];
    }
  }

  predicate SortedStrings(s: seq<string>) {
    forall i, j :: 0 <= i < j < |s| ==> LessEq(s[i], s[j])
  }

  function Insert(x: string, s: seq<string>): (r: seq<string>)
    ensures multiset(r) == multiset(s) + multiset{x}
    ensures |r| == |s| + 1
  {
    if s == [] then [x]
    else if LessEq(x, s[0]) then [x] + s
    else
      assert s == [s[0]] + s[1..];
      [s[0]] + Insert(x, s[1..])
  }

  lemma {:induction false} InsertSorted(x: string, s: seq<string>)
    requires SortedStrings(s)
    ensures SortedStrings(Insert(x, s))
  {
    if s == [] {
    } else if LessEq(x, s[0]) {
      var r := [x] + s;
      forall i, j | 0 <= i < j < |r| ensures LessEq(r[i], r[j]) {
        if i == 0 && j > 1 { LessEqTransitive(x, s[0], s[j - 1]); }
      }
    } else {
      LessEqTotal(x, s[0]);
      InsertSorted(x, s[1..]);
      var t := Insert(x, s[1..]);
      var r := [s[0]] + t;
      forall i, j | 0 <= i < j < |r| ensures LessEq(r[i], r[j]) {
        if i == 0 {
          assert r[j] in multiset(t);
          assert r[j] in multiset(s[1..]) + multiset{x};
          if r[j] == x {
          } else {
            assert r[j] in s[1..];
            var k :| 0 <= k < |s[1..]| && s[1..][k] == r[j];
            assert s[k + 1] == r[j];
          }
        }
      }
    }
  }

  /** sort.Strings, as an insertion sort. */
  function SortStrings(s: seq<string>): (r: seq<string>)
    ensures multiset(r) == multiset(s)
    ensures |r| == |s|
  {
    if s == [] then []
    else
      assert s == [s[0]] + s[1..];
      Insert(s[0], SortStrings(s[1..]))
  }

  lemma {:induction false} SortStringsSorted(s: seq<string>)
    ensures SortedStrings(SortStrings(s))
  {
    if s != [] {
      SortStringsSorted(s[1..]);
      InsertSorted(s[0], SortStrings(s[1..]));
    }
  }

  /** The first element of a non-empty sorted sequence is below every element. */
  lemma HeadIsLeast(a: seq<string>, x: string)
    requires SortedStrings(a) && x in multiset(a)
    ensures LessEq(a[0], x)
  {
    var i :| 0 <= i < |a| && a[i] == x;
    if i == 0 { LessEqReflexive(x); }
  }

  /** Two sorted sequences with the same elements are equal: sorting has one answer. */
  lemma {:induction false} SortedUnique(a: seq<string>, b: seq<string>)
    requires SortedStrings(a) && SortedStrings(b)
    requires multiset(a) == multiset(b)
    ensures a == b
    decreases |a|
  {
    if a != [] {
      SortedHeads(a, b);
      SortedTail(a);
      SortedTail(b);
      SortedUnique(a[1..], b[1..]);
      assert a == [a[0]] + a[1..] && b == [b[0]] + b[1..];
    } else {
      assert |b| == |multiset(b)| == |multiset(a)| == 0;
    }
  }

  /** Sorted sequences with the same elements start alike and go on with the same elements. */
  lemma SortedHeads(a: seq<string>, b: seq<string>)
    requires SortedStrings(a) && SortedStrings(b)
    requires multiset(a) == multiset(b) && a != []
    ensures b != [] && a[0] == b[0]
    ensures multiset(a[1..]) == multiset(b[1..])
  {
    assert a[0] in multiset(b);
    assert b != [] && b[0] in multiset(a);
    assert LessEq(a[0], b[0]) by {
      HeadIsLeast(a, b[0]);
    }
    assert LessEq(b[0], a[0]) by {
      HeadIsLeast(b, a[0]);
    }
    LessEqAntisymmetric(a[0], b[0]);
    SameTails(a, b);
  }

  /** Sequences with the same elements and the same head have tails with the same elements. */
  lemma SameTails(a: seq<string>, b: seq<string>)
    requires multiset(a) == multiset(b) && a != [] && b != [] && a[0] == b[0]
    ensures multiset(a[1..]) == multiset(b[1..])
  {
    assert a == [a[0]] + a[1..] && b == [b[0]] + b[1..];
    assert multiset(a[1..]) == multiset(a) - multiset{a[0]};
    assert multiset(b[1..]) == multiset(b) - multiset{b[0]};
  }

  lemma SortedTail(a: seq<string>)
    requires SortedStrings(a) && a != []
    ensures SortedStrings(a[1..])
  {
    forall i, j | 0 <= i < j < |a[1..]| ensures LessEq(a[1..][i], a[1..][j]) {
      assert a[1..][i] == a[i + 1] && a[1..][j] == a[j + 1];
    }
  }

  /** `m` is the least string of `s`. */
  predicate IsLeast(m: string, s: set<string>) {
    m in s && forall x :: x in s ==> LessEq(m, x)
  }

  lemma {:induction false} LeastExists(s: set<string>)
    requires s != {}
    ensures exists m :: IsLeast(m, s)
    decreases |s|
  {
    var x :| x in s;
    if s - {x} == {} {
      assert s == {x};
      LessEqReflexive(x);
      assert IsLeast(x, s);
    } else {
      LeastExists(s - {x});
      var m :| IsLeast(m, s - {x});
      LessEqTotal(m, x);
      if LessEq(m, x) {
        assert IsLeast(m, s);
      } else {
        forall y | y in s ensures LessEq(x, y) {
          if y == x {
            LessEqReflexive(x);
          } else {
            assert y in s - {x};
            LessEqTransitive(x, m, y);
          }
        }
        assert IsLeast(x, s);
      }
    }
  }

  lemma LeastUnique(s: set<string>)
    ensures forall m, n :: IsLeast(m, s) && IsLeast(n, s) ==> m == n
  {
    forall m, n | IsLeast(m, s) && IsLeast(n, s) ensures m == n {
      LessEqAntisymmetric(m, n);
    }
  }

  /**
   * The strings of a set in ascending order, each once: the slice Go
   * collects from a map's keys and passes to sort.Strings.
   */
  function SortedSet(s: set<string>): (r: seq<string>)
    ensures |r| == |s|
    ensures forall x :: x in r <==> x in s
    decreases |s|
  {
    if s == {} then []
    else
      LeastExists(s);
      LeastUnique(s);
      var m :| IsLeast(m, s);
      [m] + SortedSet(s - {m})
  }

  /** SortedSet is sorted and repeats no string. */
  lemma {:induction false} SortedSetSorted(s: set<string>)
    ensures SortedStrings(SortedSet(s))
    ensures multiset(SortedSet(s)) == multiset(s)
    decreases |s|
  {
    if s != {} {
      var m := SortedSetUnfold(s);
      var t := SortedSet(s - {m});
      SortedSetSorted(s - {m});
      SortedCons(m, t, s);
      MultisetOfSetRemove(s, m);
    }
  }

  lemma MultisetOfSetRemove<T>(s: set<T>, m: T)
    requires m in s
    ensures multiset(s) == multiset{m} + multiset(s - {m})
  {
    assert s == {m} + (s - {m});
  }

  /** SortedSet takes the least string first. */
  lemma SortedSetUnfold(s: set<string>) returns (m: string)
    requires s != {}
    ensures IsLeast(m, s)
    ensures SortedSet(s) == [m] + SortedSet(s - {m})
  {
    LeastExists(s);
    LeastUnique(s);
    m :| IsLeast(m, s);
  }

  /** SortedSet repeats no string. */
  lemma SortedSetDistinct(s: set<string>)
    ensures forall i, j :: 0 <= i < j < |SortedSet(s)| ==> SortedSet(s)[i] != SortedSet(s)[j]
  {
    SortedSetSorted(s);
    SetSequenceDistinct(SortedSet(s), s);
  }

  /** A sequence with the multiset of a set repeats no element. */
  lemma SetSequenceDistinct<T>(r: seq<T>, s: set<T>)
    requires multiset(r) == multiset(s)
    ensures forall i, j :: 0 <= i < j < |r| ==> r[i] != r[j]
  {
    forall i, j | 0 <= i < j < |r| ensures r[i] != r[j] {
      var x := r[i];
      assert r == r[..j] + r[j..];
      assert x in r[..j] && r[j] in r[j..];
      assert multiset(r)[x] == multiset(r[..j])[x] + multiset(r[j..])[x];
      assert multiset(s)[x] <= 1;
    }
  }

  lemma SortedCons(m: string, t: seq<string>, s: set<string>)
    requires IsLeast(m, s) && SortedStrings(t)
    requires forall x :: x in t ==> x in s
    ensures SortedStrings([m] + t)
  {
    var r := [m] + t;
    forall i, j | 0 <= i < j < |r| ensures LessEq(r[i], r[j]) {
      if i == 0 {
        assert r[j] == t[j - 1] && t[j - 1] in t;
      } else {
        assert r[i] == t[i - 1] && r[j] == t[j - 1];
      }
    }
  }

  // ---------------------------------------------------------------------
  // Comment continuation lines: strings.Replace(s, "\n", "\n" + p, -1)
  // ---------------------------------------------------------------------

  /** Undoes the continuation prefix `p` inserted after every newline. */
  function StripAfterNewline(r: string, p: string): (s: string)
    decreases |r|
  {
    if r == [] then []
    else if r[0] == '\n' && p <= r[1..] then "\n" + StripAfterNewline(r[1 + |p|..], p)
    else [r[0]] + StripAfterNewline(r[1..], p)
  }

  /**
   * Prefixing every line after the first with `p` loses nothing: the
   * original text is recovered by removing `p` after every newline.
   */
  lemma {:induction false} StripAfterNewlineReplaceAll(s: string, p: string)
    ensures StripAfterNewline(ReplaceAll(s, "\n", "\n" + p), p) == s
    decreases |s|
  {
    if s != [] {
      StripAfterNewlineReplaceAll(s[1..], p);
      var t := ReplaceAll(s[1..], "\n", "\n" + p);
      if s[0] == '\n' {
        assert s[..1] == "\n";
        assert ReplaceAll(s, "\n", "\n" + p) == "\n" + p + t;
        StripAfterPrefixedNewline(p, t);
      } else {
        assert s[..1] != "\n";
        assert ReplaceAll(s, "\n", "\n" + p) == [s[0]] + t;
      }
      assert s == [s[0]] + s[1..];
    }
  }

  /** A newline followed by `p` loses the `p`. */
  lemma StripAfterPrefixedNewline(p: string, t: string)
    ensures StripAfterNewline("\n" + p + t, p) == "\n" + StripAfterNewline(t, p)
  {
    var r := "\n" + p + t;
    assert r[1..] == p + t && r[1 + |p|..] == t;
    assert p <= r[1..];
  }

  // ---------------------------------------------------------------------
  // fmt "%d" for non-negative integers
  // ---------------------------------------------------------------------

  function DigitChar(d: nat): (c: char)
    requires d < 10
    ensures IsDigit(c) && c as int - '0' as int == d
  {
    (d + '0' as int) as char
  }

  /** The decimal representation of `n`, without leading zeros. */
  function Decimal(n: nat): (r: string)
    ensures |r| > 0
    ensures forall i :: 0 <= i < |r| ==> IsDigit(r[i])
    ensures (|r| == 1) == (n < 10)
  {
    if n < 10 then [DigitChar(n)] else Decimal(n / 10) + [DigitChar(n % 10)]
  }

  /** Distinct numbers print differently. */
  lemma {:induction false} DecimalInjective(a: nat, b: nat)
    requires Decimal(a) == Decimal(b)
    ensures a == b
  {
    if a >= 10 && b >= 10 {
      var da, db := Decimal(a), Decimal(b);
      assert da[|da| - 1] == DigitChar(a % 10) && db[|db| - 1] == DigitChar(b % 10);
      assert da[..|da| - 1] == Decimal(a / 10) && db[..|db| - 1] == Decimal(b / 10);
      DecimalInjective(a / 10, b / 10);
    } else if a < 10 && b < 10 {
      assert Decimal(a)[0] == DigitChar(a);
    }
  }
}
