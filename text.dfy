/** Option, the one wrapper the model needs beyond its own result types. */
module Wrappers {
  datatype Option<+T> = None | Some(value: T)
}

/**
  Text utilities shared by the model: the decimal rendering Rust's `{}` gives
  an integer, `str::split` on one character and its inverse `join`, `str::trim`,
  lower-casing, substring search, and the lexicographic order of strings that
  Rust's `Ord for str` uses (code point by code point, a prefix first).
*/
module Text {

  /** The decimal digit of 0 <= d < 10. */
  function Digit(d: nat): (c: char)
    requires d < 10
    ensures '0' <= c <= '9' && c as int == '0' as int + d
  {
    (d + 48) as char
  }

  /** Decimal rendering of a natural number, most significant digit first and no leading zero. */
  function Decimal(n: nat): (s: string)
    ensures |s| >= 1
    ensures forall i :: 0 <= i < |s| ==> '0' <= s[i] <= '9'
    ensures n >= 10 ==> |s| >= 2 && s[0] != '0'
    ensures n < 10 ==> s == [Digit(n)]
    decreases n
  {
    if n < 10 then [Digit(n)] else Decimal(n / 10) + [Digit(n % 10)]
  }

  /** Distinct numbers have distinct renderings. */
  lemma {:induction false} DecimalInjective(a: nat, b: nat)
    ensures Decimal(a) == Decimal(b) ==> a == b
    decreases a
  {
    if Decimal(a) == Decimal(b) {
      if a >= 10 && b >= 10 {
        var sa, sb := Decimal(a), Decimal(b);
        assert sa[..|sa| - 1] == Decimal(a / 10);
        assert sb[..|sb| - 1] == Decimal(b / 10);
        assert sa[|sa| - 1] == Digit(a % 10);
        assert sb[|sb| - 1] == Digit(b % 10);
        DecimalInjective(a / 10, b / 10);
      } else if a < 10 && b < 10 {
        assert Decimal(a)[0] == Digit(a) && Decimal(b)[0] == Digit(b);
      }
    }
  }

  /** Rust's `{}` rendering of a signed integer. */
  function IntText(i: int): (s: string)
    ensures i >= 0 ==> s == Decimal(i)
    ensures i < 0 ==> s == "-" + Decimal(-i)
  {
    if i < 0 then "-" + Decimal(-i) else Decimal(i)
  }

  // ---------------------------------------------------------------- join / split

  /** `slice.join(sep)`: the pieces with `sep` between neighbours. */
  function Join(xs: seq<string>, sep: string): string
    decreases |xs|
  {
    if |xs| == 0 then "" else if |xs| == 1 then xs[0] else xs[0] + sep + Join(xs[1..], sep)
  }

  /** `str::split(sep)` for a single character: the maximal pieces between separators, always at least one. */
  function Split(s: string, sep: char): (r: seq<string>)
    ensures |r| >= 1
    ensures forall i :: 0 <= i < |r| ==> sep !in r[i]
    decreases |s|
  {
    if s == [] then [""]
    else
      var rest := Split(s[1..], sep);
      if s[0] == sep then [""] + rest
      else [[s[0]] + rest[0]] + rest[1..]
  }

  /** Joining the pieces of a split with their separator gives back the string. */
  lemma {:induction false} JoinSplit(s: string, sep: char)
    ensures Join(Split(s, sep), [sep]) == s
    decreases |s|
  {
    if s != [] {
      var rest := Split(s[1..], sep);
      JoinSplit(s[1..], sep);
      if s[0] == sep {
        assert Split(s, sep) == [""] + rest;
        assert ([""] + rest)[1..] == rest;
        assert Join([""] + rest, [sep]) == "" + [sep] + Join(rest, [sep]);
        assert [sep] + s[1..] == s;
      } else {
        var first := [s[0]] + rest[0];
        assert Split(s, sep) == [first] + rest[1..];
        if |rest| == 1 {
          assert Join([first] + rest[1..], [sep]) == first;
          assert first == [s[0]] + Join(rest, [sep]);
        } else {
          assert ([first] + rest[1..])[1..] == rest[1..];
          assert Join([first] + rest[1..], [sep]) == first + [sep] + Join(rest[1..], [sep]);
          assert Join(rest, [sep]) == rest[0] + [sep] + Join(rest[1..], [sep]);
        }
        assert [s[0]] + s[1..] == s;
      }
    }
  }

  /** A piece with no separator in it splits to itself. */
  lemma {:induction false} SplitNoSep(p: string, sep: char)
    requires sep !in p
    ensures Split(p, sep) == [p]
    decreases |p|
  {
    if p != [] {
      assert sep !in p[1..] by {
        forall k | 0 <= k < |p[1..]| ensures p[1..][k] != sep { assert p[1..][k] == p[k + 1]; }
      }
      SplitNoSep(p[1..], sep);
      assert [p[0]] + p[1..] == p;
    }
  }

  /** Splitting `p + sep + q`, where `p` has no separator, yields `p` and then the pieces of `q`. */
  lemma {:induction false} SplitAfterPiece(p: string, q: string, sep: char)
    requires sep !in p
    ensures Split(p + [sep] + q, sep) == [p] + Split(q, sep)
    decreases |p|
  {
    var s := p + [sep] + q;
    if p == [] {
      assert s[0] == sep && s[1..] == q;
    } else {
      assert s[0] == p[0] && s[1..] == p[1..] + [sep] + q;
      assert sep !in p[1..] by {
        forall k | 0 <= k < |p[1..]| ensures p[1..][k] != sep { assert p[1..][k] == p[k + 1]; }
      }
      SplitAfterPiece(p[1..], q, sep);
      assert [p[0]] + p[1..] == p;
    }
  }

  /** Splitting a join of separator-free pieces gives back the pieces. */
  lemma {:induction false} SplitJoin(xs: seq<string>, sep: char)
    requires |xs| >= 1
    requires forall i :: 0 <= i < |xs| ==> sep !in xs[i]
    ensures Split(Join(xs, [sep]), sep) == xs
    decreases |xs|
  {
    if |xs| == 1 {
      SplitNoSep(xs[0], sep);
    } else {
      SplitJoin(xs[1..], sep);
      SplitAfterPiece(xs[0], Join(xs[1..], [sep]), sep);
      assert [xs[0]] + xs[1..] == xs;
    }
  }

  // ---------------------------------------------------------------- trimming

  /** Rust's `char::is_whitespace`: the characters with the Unicode White_Space property. */
  predicate IsWhitespace(c: char)
  {
    ('\t' <= c <= '\r') || c == ' ' || c == '\U{85}' || c == '\U{A0}' || c == '\U{1680}'
    || ('\U{2000}' <= c <= '\U{200A}') || c == '\U{2028}' || c == '\U{2029}'
    || c == '\U{202F}' || c == '\U{205F}' || c == '\U{3000}'
  }

  /** The first position at or after `i` that does not hold whitespace (or `|s|`). */
  function SkipWhitespace(s: string, i: nat): (j: nat)
    requires i <= |s|
    ensures i <= j <= |s|
    ensures forall k :: i <= k < j ==> IsWhitespace(s[k])
    ensures j == |s| || !IsWhitespace(s[j])
    decreases |s| - i
  {
    if i < |s| && IsWhitespace(s[i]) then SkipWhitespace(s, i + 1) else i
  }

  /** The end of `s[lo..j]` once its trailing whitespace is dropped. */
  function ContentEnd(s: string, lo: nat, j: nat): (e: nat)
    requires lo <= j <= |s|
    ensures lo <= e <= j
    ensures forall k :: e <= k < j ==> IsWhitespace(s[k])
    ensures e == lo || !IsWhitespace(s[e - 1])
    decreases j
  {
    if j > lo && IsWhitespace(s[j - 1]) then ContentEnd(s, lo, j - 1) else j
  }

  /** How many leading characters `str::trim` drops. */
  function TrimOffset(s: string): nat
    ensures TrimOffset(s) <= |s|
  {
    SkipWhitespace(s, 0)
  }

  /**
    `str::trim`: the string with its leading and trailing whitespace removed.
    The result is the slice of `s` starting at `TrimOffset(s)`, with only whitespace
    before and after it, and it neither starts nor ends with whitespace.
  */
  function Trim(s: string): (r: string)
    ensures TrimOffset(s) + |r| <= |s|
    ensures r == s[TrimOffset(s)..TrimOffset(s) + |r|]
    ensures forall k :: 0 <= k < TrimOffset(s) ==> IsWhitespace(s[k])
    ensures forall k :: TrimOffset(s) + |r| <= k < |s| ==> IsWhitespace(s[k])
    ensures r == [] || (!IsWhitespace(r[0]) && !IsWhitespace(r[|r| - 1]))
  {
    var i := SkipWhitespace(s, 0);
    s[i..ContentEnd(s, i, |s|)]
  }

  /** Splits on one character and trims every piece, as `s.split(c).map(|p| p.trim())` does. */
  function SplitTrim(s: string, sep: char): (r: seq<string>)
    ensures |r| == |Split(s, sep)|
    ensures forall i :: 0 <= i < |r| ==> r[i] == Trim(Split(s, sep)[i])
  {
    var pieces := Split(s, sep);
    seq(|pieces|, i requires 0 <= i < |pieces| => Trim(pieces[i]))
  }

  // ---------------------------------------------------------------- case and search

  /** Lower-cases the ASCII capital letters and leaves every other character alone. */
  function LowerChar(c: char): char
  {
    if 'A' <= c <= 'Z' then (c as int + 32) as char else c
  }

  function ToLower(s: string): (r: string)
    ensures |r| == |s| && forall i :: 0 <= i < |s| ==> r[i] == LowerChar(s[i])
  {
    seq(|s|, i requires 0 <= i < |s| => LowerChar(s[i]))
  }

  predicate StartsWith(s: string, prefix: string)
  {
    |prefix| <= |s| && s[..|prefix|] == prefix
  }

  predicate OccursAt(s: string, needle: string, i: int)
  {
    0 <= i && i + |needle| <= |s| && s[i..i + |needle|] == needle
  }

  /** `str::contains`: the needle occurs at some position. */
  predicate Contains(s: string, needle: string)
  {
    exists i :: 0 <= i <= |s| && OccursAt(s, needle, i)
  }

  // ---------------------------------------------------------------- lexicographic order

  /** `a <= b` in Rust's order on `str`. */
  predicate Le(a: string, b: string)
    decreases |a|
  {
    a == [] || (b != [] && (a[0] < b[0] || (a[0] == b[0] && Le(a[1..], b[1..]))))
  }

  predicate Lt(a: string, b: string)
  {
    Le(a, b) && a != b
  }

  lemma {:induction false} LeTotal(a: string, b: string)
    ensures Le(a, b) || Le(b, a)
    decreases |a|
  {
    if a != [] && b != [] && a[0] == b[0] {
      LeTotal(a[1..], b[1..]);
    }
  }

  lemma {:induction false} LeAntisymmetric(a: string, b: string)
    requires Le(a, b) && Le(b, a)
    ensures a == b
    decreases |a|
  {
    if a != [] {
      LeAntisymmetric(a[1..], b[1..]);
      assert a == [a[0]] + a[1..] && b == [b[0]] + b[1..];
    }
  }

  lemma {:induction false} LeTransitive(a: string, b: string, c: string)
    requires Le(a, b) && Le(b, c)
    ensures Le(a, c)
    decreases |a|
  {
    if a != [] && a[0] == b[0] && b[0] == c[0] {
      LeTransitive(a[1..], b[1..], c[1..]);
    }
  }

  lemma LeAntisymmetricAll()
    ensures forall a, b :: Le(a, b) && Le(b, a) ==> a == b
  {
    forall a, b | Le(a, b) && Le(b, a) ensures a == b { LeAntisymmetric(a, b); }
  }

  /** Every finite non-empty set of strings has a least element. */
  lemma {:induction false} HasLeast(s: set<string>)
    requires s != {}
    ensures exists m :: m in s && IsLeast(m, s)
    decreases |s|
  {
    var x :| x in s;
    var rest := s - {x};
    if rest == {} {
      assert s == {x};
      LeTotal(x, x);
      assert IsLeast(x, s);
    } else {
      HasLeast(rest);
      var m :| m in rest && IsLeast(m, rest);
      LeTotal(m, x);
      if Le(m, x) {
        assert IsLeast(m, s);
      } else {
        forall k | k in s ensures Le(x, k) {
          if k == x { LeTotal(x, x); } else { assert k in rest; LeTransitive(x, m, k); }
        }
        assert IsLeast(x, s);
      }
    }
  }

  predicate IsLeast(m: string, s: set<string>)
  {
    forall k :: k in s ==> Le(m, k)
  }

  /** The least element of a non-empty set of strings. */
  function Least(s: set<string>): (m: string)
    requires s != {}
    ensures m in s && forall k :: k in s ==> Le(m, k)
  {
    HasLeast(s);
    LeAntisymmetricAll();
    var m :| m in s && IsLeast(m, s);
    m
  }

  predicate StrictlySorted(xs: seq<string>)
  {
    forall i, j :: 0 <= i < j < |xs| ==> Lt(xs[i], xs[j])
  }

  /** The elements of a set of strings in ascending order, as sorting its elements with `str::cmp` gives them. */
  function SortedKeys(s: set<string>): (r: seq<string>)
    ensures |r| == |s|
    ensures forall i :: 0 <= i < |r| ==> r[i] in s
    ensures forall k :: k in s ==> k in r
    ensures StrictlySorted(r)
    decreases |s|
  {
    if s == {} then []
    else
      var m := Least(s);
      var rest := SortedKeys(s - {m});
      assert forall j :: 0 <= j < |rest| ==> Lt(m, rest[j]);
      [m] + rest
  }

  /** The first element of a strictly ascending listing of a set is the set's least element. */
  lemma SortedHead(xs: seq<string>, s: set<string>)
    requires StrictlySorted(xs) && xs != []
    requires (forall i :: 0 <= i < |xs| ==> xs[i] in s) && (forall k :: k in s ==> k in xs)
    ensures xs[0] in s && xs[0] == Least(s)
  {
    assert xs[0] in s;
    var m := Least(s);
    forall k | k in s ensures Le(xs[0], k) {
      var j :| 0 <= j < |xs| && xs[j] == k;
      if j > 0 { assert Lt(xs[0], xs[j]); } else { LeTotal(k, k); }
    }
    LeAntisymmetric(m, xs[0]);
  }

  /** Dropping the first element of a strictly ascending listing of a set lists the rest of the set. */
  lemma SortedTail(xs: seq<string>, s: set<string>)
    requires StrictlySorted(xs) && xs != []
    requires (forall i :: 0 <= i < |xs| ==> xs[i] in s) && (forall k :: k in s ==> k in xs)
    ensures StrictlySorted(xs[1..])
    ensures (forall i :: 0 <= i < |xs| - 1 ==> xs[1..][i] in s - {xs[0]}) && (forall k :: k in s - {xs[0]} ==> k in xs[1..])
  {
    var rest := xs[1..];
    forall i, j | 0 <= i < j < |rest| ensures Lt(rest[i], rest[j]) { assert Lt(xs[i + 1], xs[j + 1]); }
    forall i | 0 <= i < |rest| ensures rest[i] in s - {xs[0]} {
      assert Lt(xs[0], xs[i + 1]);
    }
    forall k | k in s - {xs[0]} ensures k in rest {
      var j :| 0 <= j < |xs| && xs[j] == k;
      assert j != 0;
      assert rest[j - 1] == k;
    }
  }

  /** A strictly ascending sequence is determined by its set of elements: it is `SortedKeys` of that set. */
  lemma {:induction false} SortedUnique(xs: seq<string>, s: set<string>)
    requires StrictlySorted(xs)
    requires (forall i :: 0 <= i < |xs| ==> xs[i] in s) && (forall k :: k in s ==> k in xs)
    ensures xs == SortedKeys(s)
    decreases |xs|
  {
    if xs == [] {
      assert s == {};
    } else {
      var m := xs[0];
      assert m in s && m == Least(s) by { SortedHead(xs, s); }
      assert xs[1..] == SortedKeys(s - {m}) by {
        SortedTail(xs, s);
        SortedUnique(xs[1..], s - {m});
      }
      assert SortedKeys(s) == [m] + SortedKeys(s - {m});
      assert xs == [m] + xs[1..];
    }
  }
}
