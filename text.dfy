/** The string and number helpers of Go's `strings` and `strconv` packages
    that the parser and the formatter rely on, over strings of Unicode
    scalar values. */
module Text {
  import opened Wrappers

  /** Go's regular-expression class `\s`: tab, newline, form feed,
      carriage return and space, nothing else. */
  predicate IsRegexSpace(c: char) {
    c == '\t' || c == '\n' || c == '\U{C}' || c == '\r' || c == ' '
  }

  /** Go's `unicode.IsSpace`, used by `strings.TrimSpace`: the characters
      with the Unicode White_Space property. */
  predicate IsUnicodeSpace(c: char) {
    var n := c as int;
    (0x9 <= n <= 0xD) || n == 0x20 || n == 0x85 || n == 0xA0 || n == 0x1680
    || (0x2000 <= n <= 0x200A) || n == 0x2028 || n == 0x2029 || n == 0x202F
    || n == 0x205F || n == 0x3000
  }

  /** Go's regular-expression class `\d`: ASCII digits only. */
  predicate IsDigit(c: char) {
    '0' <= c <= '9'
  }

  predicate AllDigits(s: string) {
    forall i :: 0 <= i < |s| ==> IsDigit(s[i])
  }

  /** The length of the longest prefix of `s` made of characters satisfying `keep`. */
  function LeadingRun(s: string, keep: char -> bool): (n: nat)
    ensures n <= |s|
    ensures forall i :: 0 <= i < n ==> keep(s[i])
    ensures n < |s| ==> !keep(s[n])
    decreases |s|
  {
    if s == [] || !keep(s[0]) then 0 else 1 + LeadingRun(s[1..], keep)
  }

  /** The length of the longest suffix of `s` made of characters satisfying `keep`. */
  function TrailingRun(s: string, keep: char -> bool): (n: nat)
    ensures n <= |s|
    ensures forall i :: |s| - n <= i < |s| ==> keep(s[i])
    ensures n < |s| ==> !keep(s[|s| - n - 1])
    decreases |s|
  {
    if s == [] || !keep(s[|s| - 1]) then 0 else 1 + TrailingRun(s[..|s| - 1], keep)
  }

  /** A run of `n` characters that `keep` accepts, bounded by one it
      rejects (or the start), is the longest such prefix. */
  lemma LeadingRunExact(s: string, keep: char -> bool, n: nat)
    requires n <= |s| && forall i :: 0 <= i < n ==> keep(s[i])
    requires n < |s| ==> !keep(s[n])
    ensures LeadingRun(s, keep) == n
  {
  }

  /** A run of `n` characters that `keep` accepts, bounded by one it
      rejects (or the end), is the longest such suffix. */
  lemma TrailingRunExact(s: string, keep: char -> bool, n: nat)
    requires n <= |s| && forall i :: |s| - n <= i < |s| ==> keep(s[i])
    requires n < |s| ==> !keep(s[|s| - n - 1])
    ensures TrailingRun(s, keep) == n
  {
  }

  lemma Split3(s: string, i: nat, j: nat)
    requires i <= j <= |s|
    ensures s == s[..i] + s[i..j] + s[j..]
  {
  }

  lemma ConcatAssoc<T>(a: seq<T>, b: seq<T>, c: seq<T>)
    ensures (a + b) + c == a + (b + c)
  {
  }

  /** The three pieces of `a + m + c` are where they were put. */
  lemma Concat3Parts(a: string, m: string, c: string)
    ensures var s := a + m + c;
            s[..|a|] == a && s[|a|..|a| + |m|] == m && s[|a| + |m|..] == c
  {
  }

  lemma Regroup(a: string, b: string, c: string, d: string, e: string)
    ensures a + (b + c + d) + e == a + b + c + d + e
  {
  }

  /** `strings.TrimLeft`/`TrimLeftFunc`: drops the longest prefix of characters in the cut set. */
  function TrimLeft(s: string, cut: char -> bool): (r: string)
    ensures |r| <= |s| && r == s[|s| - |r|..]
    ensures forall i :: 0 <= i < |s| - |r| ==> cut(s[i])
    ensures r == [] || !cut(r[0])
  {
    s[LeadingRun(s, cut)..]
  }

  /** `strings.TrimRight`/`TrimRightFunc`: drops the longest suffix of characters in the cut set. */
  function TrimRight(s: string, cut: char -> bool): (r: string)
    ensures r <= s
    ensures forall i :: |r| <= i < |s| ==> cut(s[i])
    ensures r == [] || !cut(r[|r| - 1])
  {
    s[..|s| - TrailingRun(s, cut)]
  }

  /** Trimming a suffix of cut characters off `x + y` gives back `x` when
      `x` does not end in one. */
  lemma TrimRightSuffix(x: string, y: string, cut: char -> bool)
    requires forall i :: 0 <= i < |y| ==> cut(y[i])
    requires x == [] || !cut(x[|x| - 1])
    ensures TrimRight(x + y, cut) == x
  {
    var s := x + y;
    forall i | |s| - |y| <= i < |s| ensures cut(s[i]) {
      assert s[i] == y[i - |x|];
    }
    if x != [] { assert s[|s| - |y| - 1] == x[|x| - 1]; }
    TrailingRunExact(s, cut, |y|);
    assert s[..|x|] == x;
  }

  /** Trimming a prefix of cut characters off `x + y` gives back `y` when
      `y` does not start with one. */
  lemma TrimLeftPrefix(x: string, y: string, cut: char -> bool)
    requires forall i :: 0 <= i < |x| ==> cut(x[i])
    requires y == [] || !cut(y[0])
    ensures TrimLeft(x + y, cut) == y
  {
    var s := x + y;
    forall i | 0 <= i < |x| ensures cut(s[i]) {
      assert s[i] == x[i];
    }
    if y != [] { assert s[|x|] == y[0]; }
    LeadingRunExact(s, cut, |x|);
    assert s[|x|..] == y;
  }

  /** `strings.TrimSpace`: `s` without the white space at both ends. */
  function TrimSpace(s: string): (r: string)
    ensures |r| <= |s|
    ensures r == [] || (!IsUnicodeSpace(r[0]) && !IsUnicodeSpace(r[|r| - 1]))
  {
    TrimRight(TrimLeft(s, IsUnicodeSpace), IsUnicodeSpace)
  }

  /** What `TrimSpace` removes is white space at the two ends, and only that. */
  lemma TrimSpaceRemovesOnlySpace(s: string)
    ensures var r := TrimSpace(s);
            exists i :: 0 <= i <= |s| - |r| && s[i..][..|r|] == r
                        && (forall k :: 0 <= k < i ==> IsUnicodeSpace(s[k]))
                        && (forall k :: i + |r| <= k < |s| ==> IsUnicodeSpace(s[k]))
  {
    var left := TrimLeft(s, IsUnicodeSpace);
    var r := TrimRight(left, IsUnicodeSpace);
    var i := |s| - |left|;
    assert s[i..][..|r|] == r;
  }

  predicate HasPrefix(s: string, prefix: string) {
    |prefix| <= |s| && s[..|prefix|] == prefix
  }

  predicate HasSuffix(s: string, suffix: string) {
    |suffix| <= |s| && s[|s| - |suffix|..] == suffix
  }

  /** `strings.LastIndex` for a one-character needle: -1 when absent. */
  function LastIndex(s: string, c: char): (r: int)
    ensures -1 <= r < |s|
    ensures r == -1 <==> c !in s
    ensures 0 <= r ==> s[r] == c && c !in s[r + 1..]
    decreases |s|
  {
    if s == [] then -1
    else if s[|s| - 1] == c then |s| - 1
    else
      assert s == s[..|s| - 1] + [s[|s| - 1]];
      LastIndex(s[..|s| - 1], c)
  }

  /** `strings.Count` for a one-character needle: the number of occurrences. */
  function Count(s: string, c: char): (n: nat)
    ensures n == multiset(s)[c]
    decreases |s|
  {
    if s == [] then 0
    else
      assert s == s[..|s| - 1] + [s[|s| - 1]];
      Count(s[..|s| - 1], c) + (if s[|s| - 1] == c then 1 else 0)
  }

  /** `strings.Replace(s, old, "", -1)` for a one-character `old`. */
  function RemoveAll(s: string, c: char): (r: string)
    ensures c !in r
    ensures forall x :: x != c ==> multiset(r)[x] == multiset(s)[x]
    decreases |s|
  {
    if s == [] then []
    else
      assert s == s[..|s| - 1] + [s[|s| - 1]];
      RemoveAll(s[..|s| - 1], c) + (if s[|s| - 1] == c then [] else [s[|s| - 1]])
  }

  /** `strings.Join`. */
  function Join(parts: seq<string>, sep: string): string
    decreases |parts|
  {
    if parts == [] then []
    else if |parts| == 1 then parts[0]
    else Join(parts[..|parts| - 1], sep) + sep + parts[|parts| - 1]
  }

  /** One more part is the separator and that part after the earlier
      ones; a lone part is itself. */
  lemma JoinSnoc(parts: seq<string>, x: string, sep: string)
    ensures parts == [] ==> Join(parts + [x], sep) == x
    ensures parts != [] ==> Join(parts + [x], sep) == Join(parts, sep) + sep + x
  {
    assert (parts + [x])[..|parts|] == parts;
  }

  /** Read from the front: the first part, the separator, then the rest
      joined. */
  lemma {:induction false} JoinCons(x: string, parts: seq<string>, sep: string)
    requires parts != []
    ensures Join([x] + parts, sep) == x + sep + Join(parts, sep)
    decreases |parts|
  {
    var init, last := parts[..|parts| - 1], parts[|parts| - 1];
    assert parts == init + [last];
    assert [x] + parts == ([x] + init) + [last];
    JoinSnoc([x] + init, last, sep);
    JoinSnoc(init, last, sep);
    if init != [] {
      JoinCons(x, init, sep);
    }
  }

  function DigitValue(c: char): nat
    requires IsDigit(c)
  {
    c as int - '0' as int
  }

  function DigitChar(d: nat): (c: char)
    requires d < 10
    ensures IsDigit(c) && DigitValue(c) == d
  {
    ('0' as int + d) as char
  }

  /** The number a string of decimal digits denotes. */
  function DigitsValue(s: string): nat
    requires AllDigits(s)
    decreases |s|
  {
    if s == [] then 0 else 10 * DigitsValue(s[..|s| - 1]) + DigitValue(s[|s| - 1])
  }

  function Pow10(k: nat): (p: nat)
    ensures p >= 1
  {
    if k == 0 then 1 else 10 * Pow10(k - 1)
  }

  /** `strconv.Itoa` on a natural number: its decimal digits, without
      leading zeros. */
  function Decimal(n: nat): (r: string)
    ensures |r| >= 1 && AllDigits(r)
    ensures DigitsValue(r) == n
    ensures r[0] == '0' ==> n == 0 && r == "0"
    decreases n
  {
    if n < 10 then [DigitChar(n)]
    else
      var r := Decimal(n / 10) + [DigitChar(n % 10)];
      assert r[..|r| - 1] == Decimal(n / 10);
      r
  }

  const MaxInt: int := 0x7FFF_FFFF_FFFF_FFFF
  const MinInt: int := -0x8000_0000_0000_0000

  /** `strconv.Atoi` for a 64-bit `int`: an optional sign and at least one
      ASCII digit, in range; anything else is an error (None). */
  function Atoi(s: string): (r: Option<int>)
    ensures r.Some? ==> MinInt <= r.value <= MaxInt
    ensures r.Some? ==> s != [] && AllDigits(if s[0] == '-' || s[0] == '+' then s[1..] else s)
    ensures s != [] && AllDigits(s) && DigitsValue(s) <= MaxInt ==> r == Some(DigitsValue(s))
    ensures |s| >= 2 && s[0] == '-' && AllDigits(s[1..]) && DigitsValue(s[1..]) <= MaxInt
            ==> r == Some(-(DigitsValue(s[1..]) as int))
  {
    if s == [] then None
    else
      var negative := s[0] == '-';
      var digits := if s[0] == '-' || s[0] == '+' then s[1..] else s;
      if digits == [] || !AllDigits(digits) then None
      else
        var v := if negative then -(DigitsValue(digits) as int) else DigitsValue(digits);
        if MinInt <= v <= MaxInt then Some(v) else None
  }
}
