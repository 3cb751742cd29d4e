/** String helpers shared by the codecs and the path builders: ASCII case mapping
    (the stand-in for Rust's `str::to_lowercase`), character counting, prefixes up to a
    separator, and the decimal rendering that `format!("{}", n)` gives an unsigned integer. */
module Strings {

  predicate IsUpperChar(c: char) {
    'A' <= c <= 'Z'
  }

  predicate IsLowerChar(c: char) {
    'a' <= c <= 'z'
  }

  /** The ASCII lower-case of one character; every other character is kept. */
  function LowerChar(c: char): (r: char)
    ensures !IsUpperChar(r)
    ensures IsUpperChar(c) ==> IsLowerChar(r) && r as int - c as int == 32
    ensures !IsUpperChar(c) ==> r == c
  {
    if IsUpperChar(c) then (c as int + 32) as char else c
  }

  /** `s.to_lowercase()`, character by character. */
  function Lower(s: string): (r: string)
    ensures |r| == |s|
    ensures forall i :: 0 <= i < |s| ==> r[i] == LowerChar(s[i])
  {
    seq(|s|, i requires 0 <= i < |s| => LowerChar(s[i]))
  }

  /** A string with no upper-case ASCII letter. */
  predicate NoUpper(s: string) {
    forall i :: 0 <= i < |s| ==> !IsUpperChar(s[i])
  }

  lemma LowerHasNoUpper(s: string)
    ensures NoUpper(Lower(s))
  {
  }

  /** Lower-casing twice is lower-casing once. */
  lemma LowerIdempotent(s: string)
    ensures Lower(Lower(s)) == Lower(s)
  {
  }

  /** Number of occurrences of `c` in `s`. */
  function Count(c: char, s: string): (n: nat)
    ensures n <= |s|
    ensures n == 0 <==> c !in s
  {
    if s == [] then 0 else (if s[0] == c then 1 else 0) + Count(c, s[1..])
  }

  lemma {:induction false} CountAppend(c: char, a: string, b: string)
    ensures Count(c, a + b) == Count(c, a) + Count(c, b)
  {
    if a == [] {
      assert a + b == b;
    } else {
      assert (a + b)[1..] == a[1..] + b;
      CountAppend(c, a[1..], b);
    }
  }

  /** The text of `s` before the first `c` (all of `s` when there is none). */
  function Until(c: char, s: string): (r: string)
    ensures |r| <= |s| && r == s[..|r|]
    ensures c !in r
    ensures |r| < |s| ==> s[|r|] == c
  {
    if s == [] then [] else if s[0] == c then [] else [s[0]] + Until(c, s[1..])
  }

  lemma {:induction false} UntilAppend(c: char, a: string, b: string)
    requires c !in a
    ensures Until(c, a + [c] + b) == a
  {
    if a != [] {
      assert (a + [c] + b)[1..] == a[1..] + [c] + b;
      UntilAppend(c, a[1..], b);
    }
  }

  /** The prefix before the first `c` of `a + b` is that of `a` when `a` has a `c`. */
  lemma {:induction false} UntilPrefix(c: char, a: string, b: string)
    requires c in a
    ensures Until(c, a + b) == Until(c, a)
  {
    if a[0] != c {
      assert (a + b)[1..] == a[1..] + b;
      UntilPrefix(c, a[1..], b);
    }
  }

  predicate StartsWith(s: string, prefix: string) {
    |prefix| <= |s| && s[..|prefix|] == prefix
  }

  predicate EndsWith(s: string, suffix: string) {
    |suffix| <= |s| && s[|s| - |suffix|..] == suffix
  }

  /** Two strings that begin with the same text agree after it. */
  lemma PrefixCancel(p: string, x: string, y: string)
    requires p + x == p + y
    ensures x == y
  {
    assert x == (p + x)[|p|..];
    assert y == (p + y)[|p|..];
  }

  /** Putting the same text in front of two different strings keeps them different. */
  lemma PrefixKeepsDifference(p: string, x: string, y: string)
    requires x != y
    ensures p + x != p + y
  {
    assert x == (p + x)[|p|..];
    assert y == (p + y)[|p|..];
  }

  /** The three parts of a concatenation are its slices at the part boundaries. */
  lemma ConcatSlices(a: string, b: string, c: string)
    ensures var s := a + b + c;
      && |s| == |a| + |b| + |c|
      && s[..|a|] == a
      && s[|a|..] == b + c
      && s[|a|..|a| + |b|] == b
      && s[|a| + |b|..] == c
  {
  }

  /** Two strings that end with the same text agree before it. */
  lemma SuffixCancel(x: string, y: string, q: string)
    requires x + q == y + q
    ensures x == y
  {
    assert x == (x + q)[..|x|];
    assert y == (y + q)[..|y|];
  }

  /** Joining two fields with a separator that the first field does not contain
      can be undone: the separator's first occurrence marks the join. */
  lemma SplitAtSeparator(sep: char, a: string, b: string, c: string, d: string)
    requires sep !in a && sep !in c
    requires a + [sep] + b == c + [sep] + d
    ensures a == c && b == d
  {
    UntilAppend(sep, a, b);
    UntilAppend(sep, c, d);
    assert a == c;
    assert (a + [sep]) + b == (a + [sep]) + d;
    PrefixCancel(a + [sep], b, d);
  }

  /** Joining two fields with a separator that the second field does not contain
      can be undone: the separator's last occurrence marks the join. */
  lemma SplitAtLastSeparator(sep: char, a: string, b: string, c: string, d: string)
    requires sep !in b && sep !in d
    requires a + [sep] + b == c + [sep] + d
    ensures a == c && b == d
  {
    var t := a + [sep] + b;
    NothingAfterLast(sep, a, b);
    NothingAfterLast(sep, c, d);
    assert t[|a|] == sep && t[|c|] == sep;
    assert a == t[..|a|] && c == t[..|c|];
    assert b == t[|a| + 1..] && d == t[|c| + 1..];
  }

  /** In `a + [sep] + b` with `b` free of `sep`, no `sep` follows position `|a|`. */
  lemma NothingAfterLast(sep: char, a: string, b: string)
    requires sep !in b
    ensures forall i :: |a| < i < |a + [sep] + b| ==> (a + [sep] + b)[i] != sep
  {
    forall i | |a| < i < |a + [sep] + b|
      ensures (a + [sep] + b)[i] != sep
    {
      assert (a + [sep] + b)[i] == b[i - |a| - 1];
    }
  }

  predicate IsDigitChar(c: char) {
    '0' <= c <= '9'
  }

  predicate AllDigits(s: string) {
    forall i :: 0 <= i < |s| ==> IsDigitChar(s[i])
  }

  function DigitChar(d: nat): (c: char)
    requires d < 10
    ensures IsDigitChar(c) && c as int - '0' as int == d
  {
    ('0' as int + d) as char
  }

  /** `format!("{}", n)` for an unsigned integer: its decimal digits, most
      significant first, without leading zeros. */
  function Decimal(n: nat): (r: string)
    ensures |r| > 0 && AllDigits(r)
    ensures |r| > 1 ==> r[0] != '0'
    decreases n
  {
    if n < 10 then [DigitChar(n)] else Decimal(n / 10) + [DigitChar(n % 10)]
  }

  /** The number a string of decimal digits denotes. */
  function DecimalValue(s: string): nat
    requires AllDigits(s)
  {
    if s == [] then 0
    else DecimalValue(s[..|s| - 1]) * 10 + (s[|s| - 1] as int - '0' as int)
  }

  /** Reading the decimal rendering of `n` gives `n` back. */
  lemma {:induction false} DecimalRoundTrip(n: nat)
    ensures DecimalValue(Decimal(n)) == n
    decreases n
  {
    if n >= 10 {
      var r := Decimal(n);
      DecimalRoundTrip(n / 10);
      assert r[..|r| - 1] == Decimal(n / 10);
    }
  }

  lemma DecimalInjective(m: nat, n: nat)
    requires Decimal(m) == Decimal(n)
    ensures m == n
  {
    DecimalRoundTrip(m);
    DecimalRoundTrip(n);
  }

  lemma DecimalHasNo(c: char, n: nat)
    requires !IsDigitChar(c)
    ensures c !in Decimal(n)
  {
  }
}
