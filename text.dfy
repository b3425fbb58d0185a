/** String helpers the handlers rely on: Python's `str.strip()`, the
    case-insensitive substring test behind Django's `icontains`, decimal
    zero-padded rendering of ids (`f"{n:06d}"`) and lexicographic order. */
module Text {

  // ---------------------------------------------------------------- whitespace

  /** The characters Python's `str.strip()` removes by default, those for
      which `str.isspace()` holds: tab, newline, vertical tab, form feed,
      carriage return, the separators U+001C-U+001F and space, then next
      line, no-break space, the Ogham space mark, the spaces U+2000-U+200A,
      the line and paragraph separators, the narrow no-break space, the
      medium mathematical space and the ideographic space. */
  const Whitespace: set<char> :=
    {'\t', '\n', '\U{0B}', '\U{0C}', '\r', '\U{1C}', '\U{1D}', '\U{1E}', '\U{1F}', ' ',
     '\U{85}', '\U{A0}', '\U{1680}',
     '\U{2000}', '\U{2001}', '\U{2002}', '\U{2003}', '\U{2004}', '\U{2005}',
     '\U{2006}', '\U{2007}', '\U{2008}', '\U{2009}', '\U{200A}',
     '\U{2028}', '\U{2029}', '\U{202F}', '\U{205F}', '\U{3000}'}

  predicate AllIn(s: string, chars: set<char>) {
    forall i :: 0 <= i < |s| ==> s[i] in chars
  }

  /** Neither starts nor ends with a character of `chars` (so stripping keeps it). */
  predicate Trimmed(s: string, chars: set<char>) {
    s == [] || (s[0] !in chars && s[|s| - 1] !in chars)
  }

  /** `s.lstrip(chars)`: drops the leading characters that are in `chars`. */
  function StripLeft(s: string, chars: set<char>): (r: string)
    ensures |r| <= |s|
    ensures r == [] || r[0] !in chars
  {
    if |s| > 0 && s[0] in chars then StripLeft(s[1..], chars) else s
  }

  /** `s.rstrip(chars)`: drops the trailing characters that are in `chars`. */
  function StripRight(s: string, chars: set<char>): (r: string)
    ensures |r| <= |s|
    ensures r == [] || r[|r| - 1] !in chars
  {
    if |s| > 0 && s[|s| - 1] in chars then StripRight(s[..|s| - 1], chars) else s
  }

  /** What `lstrip` leaves is a suffix of `s`, and what it drops is made
      of characters of `chars`. */
  lemma {:induction false} StripLeftSlice(s: string, chars: set<char>)
    ensures var r := StripLeft(s, chars);
      r == s[|s| - |r|..] && AllIn(s[..|s| - |r|], chars)
    decreases |s|
  {
    if |s| > 0 && s[0] in chars {
      StripLeftSlice(s[1..], chars);
      var r := StripLeft(s, chars);
      assert s[1..][|s| - 1 - |r|..] == s[|s| - |r|..];
    }
  }

  /** What `rstrip` leaves is a prefix of `s`, and what it drops is made
      of characters of `chars`. */
  lemma {:induction false} StripRightSlice(s: string, chars: set<char>)
    ensures var r := StripRight(s, chars);
      r == s[..|r|] && AllIn(s[|r|..], chars)
    decreases |s|
  {
    if |s| > 0 && s[|s| - 1] in chars {
      StripRightSlice(s[..|s| - 1], chars);
      var r := StripRight(s, chars);
      assert s[..|s| - 1][..|r|] == s[..|r|];
      assert forall i :: |r| <= i < |s| - 1 ==> s[i] == s[..|s| - 1][i];
    }
  }

  /** Where `s.strip(chars)` starts in `s`. */
  function StripStart(s: string, chars: set<char>): nat
    ensures StripStart(s, chars) <= |s|
  {
    |s| - |StripLeft(s, chars)|
  }

  /** `s.strip(chars)`: `rstrip` after `lstrip`. What is left neither
      starts nor ends with a character of `chars`. */
  function StripSet(s: string, chars: set<char>): (r: string)
    ensures |r| <= |s|
    ensures Trimmed(r, chars)
  {
    StripRightSlice(StripLeft(s, chars), chars);
    StripRight(StripLeft(s, chars), chars)
  }

  /** The stripped string is the slice of `s` left once characters of
      `chars` are cut off on either side. */
  lemma StripSetSlice(s: string, chars: set<char>)
    ensures var r := StripSet(s, chars);
      var k := StripStart(s, chars);
      && k + |r| <= |s| && r == s[k..k + |r|]
      && AllIn(s[..k], chars) && AllIn(s[k + |r|..], chars)
  {
    var l := StripLeft(s, chars);
    var r := StripRight(l, chars);
    StripLeftSlice(s, chars);
    StripRightSlice(l, chars);
    var k := |s| - |l|;
    assert s[k..k + |r|] == r;
    assert s[k + |r|..] == l[|r|..];
  }

  /** `s.strip()`. */
  function Strip(s: string): string {
    StripSet(s, Whitespace)
  }

  /** Stripping is idempotent. */
  lemma StripIdempotent(s: string, chars: set<char>)
    ensures StripSet(StripSet(s, chars), chars) == StripSet(s, chars)
  {
    var r := StripSet(s, chars);
    assert StripLeft(r, chars) == r;
    assert StripRight(r, chars) == r;
  }

  /** A string made only of stripped characters strips to the empty string. */
  lemma {:induction false} StripAllIn(s: string, chars: set<char>)
    requires AllIn(s, chars)
    ensures StripSet(s, chars) == ""
  {
    StripLeftAllIn(s, chars);
  }

  lemma {:induction false} StripLeftAllIn(s: string, chars: set<char>)
    requires AllIn(s, chars)
    ensures StripLeft(s, chars) == ""
  {
    if |s| > 0 {
      assert s[0] in chars;
      StripLeftAllIn(s[1..], chars);
    }
  }

  lemma {:induction false} StripLeftPrefix(a: string, t: string, chars: set<char>)
    requires AllIn(a, chars) && t != [] && t[0] !in chars
    ensures StripLeft(a + t, chars) == t
    decreases |a|
  {
    if a != [] {
      assert (a + t)[1..] == a[1..] + t;
      StripLeftPrefix(a[1..], t, chars);
    }
  }

  lemma {:induction false} StripRightSuffix(t: string, b: string, chars: set<char>)
    requires AllIn(b, chars) && t != [] && t[|t| - 1] !in chars
    ensures StripRight(t + b, chars) == t
    decreases |b|
  {
    if b != [] {
      assert (t + b)[..|t + b| - 1] == t + b[..|b| - 1];
      StripRightSuffix(t, b[..|b| - 1], chars);
    }
  }

  /** Stripping `a + m + b` leaves `m` when `a` and `b` are made of
      stripped characters and `m` neither starts nor ends with one. */
  lemma StripSetFrame(a: string, m: string, b: string, chars: set<char>)
    requires AllIn(a, chars) && AllIn(b, chars) && Trimmed(m, chars)
    ensures StripSet(a + m + b, chars) == m
  {
    if m == [] {
      assert a + m + b == a + b;
      assert AllIn(a + b, chars);
      StripAllIn(a + b, chars);
    } else {
      assert a + m + b == a + (m + b);
      StripLeftPrefix(a, m + b, chars);
      StripRightSuffix(m, b, chars);
    }
  }

  // ---------------------------------------------------------------- joining

  /** `[x for x in parts if x]`. */
  function NonEmpty(parts: seq<string>): (r: seq<string>)
    ensures forall x :: x in r <==> x in parts && x != ""
  {
    if parts == [] then []
    else (if parts[0] == "" then [] else [parts[0]]) + NonEmpty(parts[1..])
  }

  /** `sep.join(parts)`. */
  function Join(sep: string, parts: seq<string>): string {
    if parts == [] then ""
    else if |parts| == 1 then parts[0]
    else parts[0] + sep + Join(sep, parts[1..])
  }

  /** Joining the non-empty ones of two parts. */
  lemma JoinNonEmptyPair(sep: string, x: string, y: string)
    ensures Join(sep, NonEmpty([x, y])) ==
      if x != "" && y != "" then x + sep + y else if x != "" then x else y
  {
    assert [x, y][1..] == [y];
    assert [y][1..] == [];
    var ys := if y == "" then [] else [y];
    assert NonEmpty([y]) == ys + NonEmpty([]) == ys;
    var both := (if x == "" then [] else [x]) + ys;
    assert NonEmpty([x, y]) == both;
    if x != "" && y != "" {
      assert both == [x, y] && both[1..] == [y];
    }
  }

  // ---------------------------------------------------------------- case

  /** ASCII lower-casing, as SQLite's LIKE compares. */
  function LowerChar(c: char): (r: char)
    ensures 'A' <= c <= 'Z' ==> 'a' <= r <= 'z' && r as int == c as int + 32
    ensures !('A' <= c <= 'Z') ==> r == c
  {
    if 'A' <= c <= 'Z' then (c as int + 32) as char else c
  }

  function Lower(s: string): (r: string)
    ensures |r| == |s|
    ensures forall i :: 0 <= i < |s| ==> r[i] == LowerChar(s[i])
  {
    if s == [] then [] else [LowerChar(s[0])] + Lower(s[1..])
  }

  /** ASCII upper-casing (`str.upper()` on hexadecimal digits). */
  function UpperChar(c: char): (r: char)
    ensures 'a' <= c <= 'z' ==> 'A' <= r <= 'Z' && r as int == c as int - 32
    ensures !('a' <= c <= 'z') ==> r == c
  {
    if 'a' <= c <= 'z' then (c as int - 32) as char else c
  }

  function Upper(s: string): (r: string)
    ensures |r| == |s|
    ensures forall i :: 0 <= i < |s| ==> r[i] == UpperChar(s[i])
  {
    if s == [] then [] else [UpperChar(s[0])] + Upper(s[1..])
  }

  // ---------------------------------------------------------------- substrings

  /** `t` occurs in `s` starting at position `i`. */
  predicate OccursAt(s: string, t: string, i: int) {
    0 <= i && i + |t| <= |s| && s[i..i + |t|] == t
  }

  /** `t in s`, by scanning the start positions from left to right. */
  function Contains(s: string, t: string): bool
    decreases |s|
  {
    if |t| <= |s| && s[..|t|] == t then true
    else if |s| == 0 then false
    else Contains(s[1..], t)
  }

  /** The scan finds exactly the strings that occur somewhere in `s`. */
  lemma {:induction false} ContainsIff(s: string, t: string)
    ensures Contains(s, t) <==> exists i :: OccursAt(s, t, i)
    decreases |s|
  {
    if |t| <= |s| && s[..|t|] == t {
      assert OccursAt(s, t, 0);
    } else if |s| > 0 {
      ContainsIff(s[1..], t);
      forall i | OccursAt(s, t, i) ensures OccursAt(s[1..], t, i - 1) {
        assert i != 0 by { assert s[0..|t|] == s[..|t|]; }
        assert s[1..][i - 1..i - 1 + |t|] == s[i..i + |t|];
      }
      forall i | OccursAt(s[1..], t, i) ensures OccursAt(s, t, i + 1) {
        assert s[1..][i..i + |t|] == s[i + 1..i + 1 + |t|];
      }
    }
  }

  /** The empty string occurs in every string (Django skips the filter for an empty query). */
  lemma ContainsEmpty(s: string)
    ensures Contains(s, "")
  {
    assert s[..0] == "";
  }

  /** Django's `field__icontains=q`, as SQLite evaluates it: ASCII case-insensitive. */
  predicate IContains(s: string, q: string) {
    Contains(Lower(s), Lower(q))
  }

  // ---------------------------------------------------------------- decimal digits

  predicate IsDigit(c: char) { '0' <= c <= '9' }

  predicate AllDigits(s: string) {
    forall i :: 0 <= i < |s| ==> IsDigit(s[i])
  }

  function DigitChar(d: nat): (c: char)
    requires d < 10
    ensures IsDigit(c) && c as int - '0' as int == d
  {
    ('0' as int + d) as char
  }

  function DigitOf(c: char): (d: nat)
    requires IsDigit(c)
    ensures d < 10 && DigitChar(d) == c
  {
    c as int - '0' as int
  }

  /** `str(n)` for a natural number: decimal digits, no leading zero. */
  function NatToString(n: nat): (r: string)
    ensures |r| >= 1 && AllDigits(r)
    ensures |r| > 1 ==> r[0] != '0'
    decreases n
  {
    if n < 10 then [DigitChar(n)] else NatToString(n / 10) + [DigitChar(n % 10)]
  }

  /** The value of a string of decimal digits, read from the left. */
  function DigitsValue(s: string): nat
    requires AllDigits(s)
  {
    if s == [] then 0 else DigitsValue(s[..|s| - 1]) * 10 + DigitOf(s[|s| - 1])
  }

  /** Reading back the digits of `n` gives `n`. */
  lemma {:induction false} NatToStringValue(n: nat)
    ensures DigitsValue(NatToString(n)) == n
    decreases n
  {
    if n >= 10 {
      NatToStringValue(n / 10);
      var s := NatToString(n);
      assert s[..|s| - 1] == NatToString(n / 10);
    }
  }

  function Zeros(k: nat): (r: string)
    ensures |r| == k && forall i :: 0 <= i < k ==> r[i] == '0'
  {
    if k == 0 then "" else Zeros(k - 1) + "0"
  }

  /** Left-pads with zeros to at least `width` characters. */
  function ZeroPad(s: string, width: nat): (r: string)
    ensures |r| == if |s| >= width then |s| else width
    ensures r[|r| - |s|..] == s
    ensures forall i :: 0 <= i < |r| - |s| ==> r[i] == '0'
  {
    if |s| >= width then s else Zeros(width - |s|) + s
  }

  lemma {:induction false} ZerosValue(k: nat)
    ensures AllDigits(Zeros(k)) && DigitsValue(Zeros(k)) == 0
  {
    if k > 0 {
      ZerosValue(k - 1);
      assert Zeros(k)[..k - 1] == Zeros(k - 1);
    }
  }

  /** Leading zeros do not change the value of a digit string. */
  lemma {:induction false} LeadingZerosValue(k: nat, s: string)
    requires AllDigits(s)
    ensures AllDigits(Zeros(k) + s) && DigitsValue(Zeros(k) + s) == DigitsValue(s)
    decreases |s|
  {
    if s == [] {
      assert Zeros(k) + s == Zeros(k);
      ZerosValue(k);
    } else {
      var t := Zeros(k) + s;
      assert t[..|t| - 1] == Zeros(k) + s[..|s| - 1];
      LeadingZerosValue(k, s[..|s| - 1]);
    }
  }

  /** `f"{n:0{width}d}"`: the digits of `n` zero-padded to at least `width`. */
  function PadNat(n: nat, width: nat): (r: string)
    ensures |r| >= width && AllDigits(r)
    ensures |NatToString(n)| >= width ==> r == NatToString(n)
  {
    ZeroPad(NatToString(n), width)
  }

  function Pow10(w: nat): (p: nat)
    ensures p >= 1
  {
    if w == 0 then 1 else 10 * Pow10(w - 1)
  }

  /** A number below `10^w` needs at most `w` digits. */
  lemma {:induction false} NatToStringShort(n: nat, w: nat)
    requires w >= 1 && n < Pow10(w)
    ensures |NatToString(n)| <= w
  {
    if n >= 10 {
      assert w >= 2;
      NatToStringShort(n / 10, w - 1);
    }
  }

  /** So padding a number below `10^w` to width `w` gives exactly `w` digits. */
  lemma PadNatLength(n: nat, w: nat)
    requires w >= 1 && n < Pow10(w)
    ensures |PadNat(n, w)| == w
  {
    NatToStringShort(n, w);
  }

  /** Padding loses nothing: the padded digits still read back as `n`. */
  lemma PadNatValue(n: nat, width: nat)
    ensures DigitsValue(PadNat(n, width)) == n
  {
    var s := NatToString(n);
    NatToStringValue(n);
    if |s| < width {
      LeadingZerosValue(width - |s|, s);
    }
  }

  /** Distinct numbers render as distinct padded strings. */
  lemma PadNatInjective(a: nat, b: nat, width: nat)
    requires PadNat(a, width) == PadNat(b, width)
    ensures a == b
  {
    PadNatValue(a, width);
    PadNatValue(b, width);
  }

  /** `prefix + f"{n:06d}"`, the form the numbering signals assign. */
  function PrefixedId(prefix: string, n: nat): (r: string)
    ensures |r| >= |prefix| + 6 && r[..|prefix|] == prefix && AllDigits(r[|prefix|..])
  {
    assert (prefix + PadNat(n, 6))[|prefix|..] == PadNat(n, 6);
    prefix + PadNat(n, 6)
  }

  /** Distinct ids get distinct numbers under the same prefix. */
  lemma PrefixedIdInjective(prefix: string, a: nat, b: nat)
    requires PrefixedId(prefix, a) == PrefixedId(prefix, b)
    ensures a == b
  {
    assert PrefixedId(prefix, a)[|prefix|..] == PadNat(a, 6);
    assert PrefixedId(prefix, b)[|prefix|..] == PadNat(b, 6);
    PadNatInjective(a, b, 6);
  }

  /** The id can be read back from the digits after the prefix. */
  lemma PrefixedIdValue(prefix: string, n: nat)
    ensures DigitsValue(PrefixedId(prefix, n)[|prefix|..]) == n
  {
    assert PrefixedId(prefix, n)[|prefix|..] == PadNat(n, 6);
    PadNatValue(n, 6);
  }

  // ---------------------------------------------------------------- order

  /** Lexicographic order on code points (SQLite's default BINARY collation). */
  predicate StrLe(a: string, b: string) {
    a == [] || (b != [] && (a[0] < b[0] || (a[0] == b[0] && StrLe(a[1..], b[1..]))))
  }

  lemma {:induction false} StrLeTotal(a: string, b: string)
    ensures StrLe(a, b) || StrLe(b, a)
  {
    if a != [] && b != [] && a[0] == b[0] {
      StrLeTotal(a[1..], b[1..]);
    }
  }

  lemma {:induction false} StrLeTransitive(a: string, b: string, c: string)
    requires StrLe(a, b) && StrLe(b, c)
    ensures StrLe(a, c)
  {
    if a != [] && b != [] && c != [] && a[0] == b[0] == c[0] {
      StrLeTransitive(a[1..], b[1..], c[1..]);
    }
  }

  lemma {:induction false} StrLeAntisymmetric(a: string, b: string)
    requires StrLe(a, b) && StrLe(b, a)
    ensures a == b
  {
    if a != [] && b != [] {
      StrLeAntisymmetric(a[1..], b[1..]);
    }
  }
}
