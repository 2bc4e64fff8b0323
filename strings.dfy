/** The Foundation string operations the app relies on, written out over
    `seq<char>`: trimming of `whitespacesAndNewlines`, `lowercased()`,
    `split(separator:)`, `hasPrefix`, `replacingOccurrences(of: " ", with: "-")`,
    decimal interpolation of integers and `Int(String)`. */
module Strings {
  import opened Wrappers

  /** Foundation's `whitespacesAndNewlines`: the Unicode White_Space characters. */
  predicate IsWhitespace(c: char) {
    c == ' ' || c == '\t' || c == '\n' || c == '\r' || c == '\U{000B}' || c == '\U{000C}'
    || c == '\U{0085}' || c == '\U{00A0}' || c == '\U{1680}' || ('\U{2000}' <= c <= '\U{200A}')
    || c == '\U{2028}' || c == '\U{2029}' || c == '\U{202F}' || c == '\U{205F}' || c == '\U{3000}'
  }

  predicate AllWhitespace(s: string) {
    forall k :: 0 <= k < |s| ==> IsWhitespace(s[k])
  }

  /** Drops the leading whitespace. */
  function TrimStart(s: string): string {
    if s != [] && IsWhitespace(s[0]) then TrimStart(s[1..]) else s
  }

  /** Drops the trailing whitespace. */
  function TrimEnd(s: string): string {
    if s != [] && IsWhitespace(s[|s| - 1]) then TrimEnd(s[..|s| - 1]) else s
  }

  /** `trimmingCharacters(in: .whitespacesAndNewlines)`: never longer than
      the input, and neither end of the result is whitespace. */
  function Trim(s: string): (r: string)
    ensures |r| <= |s|
    ensures r != [] ==> !IsWhitespace(r[0]) && !IsWhitespace(r[|r| - 1])
  {
    TrimStartSpec(s);
    TrimEndSpec(TrimStart(s));
    TrimEnd(TrimStart(s))
  }

  /** What `TrimStart` keeps is a suffix that does not start with
      whitespace, and everything it drops is whitespace. */
  lemma {:induction false} TrimStartSpec(s: string)
    ensures var r := TrimStart(s);
            |r| <= |s| && r == s[|s| - |r|..]
            && (r != [] ==> !IsWhitespace(r[0]))
            && AllWhitespace(s[..|s| - |r|])
  {
    if s != [] && IsWhitespace(s[0]) {
      TrimStartSpec(s[1..]);
      var r := TrimStart(s);
      assert s[1..][|s| - 1 - |r|..] == s[|s| - |r|..];
      assert forall k :: 1 <= k < |s| - |r| ==> s[k] == s[1..][..|s| - 1 - |r|][k - 1];
    }
  }

  /** What `TrimEnd` keeps is a prefix that does not end with whitespace,
      and everything it drops is whitespace. */
  lemma {:induction false} TrimEndSpec(s: string)
    ensures var r := TrimEnd(s);
            |r| <= |s| && r == s[..|r|]
            && (r != [] ==> !IsWhitespace(r[|r| - 1]))
            && AllWhitespace(s[|r|..])
  {
    if s != [] && IsWhitespace(s[|s| - 1]) {
      var t := s[..|s| - 1];
      TrimEndSpec(t);
      var r := TrimEnd(s);
      assert t[..|r|] == s[..|r|];
      assert forall k :: |r| <= k < |s| - 1 ==> s[k] == t[|r|..][k - |r|];
    }
  }

  /** The trimmed string is a slice of `s` with only whitespace around it,
      and it neither starts nor ends with whitespace. */
  lemma TrimSpec(s: string) returns (i: nat, j: nat)
    ensures i <= j <= |s| && Trim(s) == s[i..j]
    ensures AllWhitespace(s[..i]) && AllWhitespace(s[j..])
    ensures Trim(s) != [] ==> !IsWhitespace(Trim(s)[0]) && !IsWhitespace(Trim(s)[|Trim(s)| - 1])
  {
    var t := TrimStart(s);
    TrimStartSpec(s);
    TrimEndSpec(t);
    var r := TrimEnd(t);
    i, j := |s| - |t|, |s| - |t| + |r|;
    assert r == s[i..j];
    assert s[j..] == t[|r|..];
  }

  /** Leading whitespace in front of a word is dropped, and nothing more. */
  lemma {:induction false} TrimStartPadded(pre: string, w: string)
    requires AllWhitespace(pre) && w != [] && !IsWhitespace(w[0])
    ensures TrimStart(pre + w) == w
  {
    if pre == [] {
      assert pre + w == w;
    } else {
      assert (pre + w)[0] == pre[0];
      assert (pre + w)[1..] == pre[1..] + w;
      TrimStartPadded(pre[1..], w);
    }
  }

  /** Trailing whitespace after a word is dropped, and nothing more. */
  lemma {:induction false} TrimEndPadded(w: string, post: string)
    requires AllWhitespace(post) && w != [] && !IsWhitespace(w[|w| - 1])
    ensures TrimEnd(w + post) == w
  {
    if post == [] {
      assert w + post == w;
    } else {
      var s := w + post;
      assert s[|s| - 1] == post[|post| - 1];
      assert s[..|s| - 1] == w + post[..|post| - 1];
      TrimEndPadded(w, post[..|post| - 1]);
    }
  }

  /** Trimming a word padded with whitespace on both sides gives the word. */
  lemma TrimPadded(pre: string, w: string, post: string)
    requires AllWhitespace(pre) && AllWhitespace(post)
    requires w != [] && !IsWhitespace(w[0]) && !IsWhitespace(w[|w| - 1])
    ensures Trim(pre + w + post) == w
  {
    assert pre + w + post == pre + (w + post);
    TrimStartPadded(pre, w + post);
    TrimEndPadded(w, post);
  }

  /** A string trims to nothing exactly when it is all whitespace. */
  lemma TrimEmptyIff(s: string)
    ensures Trim(s) == [] <==> AllWhitespace(s)
  {
    var i, j := TrimSpec(s);
    if Trim(s) == [] {
      assert i == j;
      forall k | 0 <= k < |s| ensures IsWhitespace(s[k]) {
        if k < i { assert s[k] == s[..i][k]; } else { assert s[k] == s[j..][k - j]; }
      }
    } else {
      assert s[i] == Trim(s)[0];
    }
  }

  /** Trimming a trimmed string changes nothing. */
  lemma TrimIdempotent(s: string)
    ensures Trim(Trim(s)) == Trim(s)
  {
    var t := Trim(s);
    var _, _ := TrimSpec(s);
    if t != [] {
      assert TrimStart(t) == t;
      assert TrimEnd(t) == t;
    }
  }

  /** `Character.lowercased()` for the scripts the app reads: ASCII Latin and
      the basic Cyrillic block (U+0400..U+042F); every other character is kept. */
  function LowerChar(c: char): char {
    if 'A' <= c <= 'Z' then (c as int + 32) as char
    else if '\U{0410}' <= c <= '\U{042F}' then (c as int + 32) as char
    else if '\U{0400}' <= c <= '\U{040F}' then (c as int + 80) as char
    else c
  }

  /** `String.lowercased()`, character by character. */
  function Lower(s: string): (r: string)
    ensures |r| == |s|
    ensures forall k :: 0 <= k < |s| ==> r[k] == LowerChar(s[k])
  {
    seq(|s|, k requires 0 <= k < |s| => LowerChar(s[k]))
  }

  /** Lowercasing twice is lowercasing once, and it never moves a space. */
  lemma LowerIdempotent(s: string)
    ensures Lower(Lower(s)) == Lower(s)
    ensures forall k :: 0 <= k < |s| ==> (Lower(s)[k] == ' ' <==> s[k] == ' ')
  {
    assert forall k :: 0 <= k < |s| ==> Lower(Lower(s))[k] == Lower(s)[k];
  }

  /** `replacingOccurrences(of: " ", with: "-")`. */
  function ReplaceSpaces(s: string): (r: string)
    ensures |r| == |s|
    ensures forall k :: 0 <= k < |r| ==> r[k] != ' '
    ensures forall k :: 0 <= k < |s| && s[k] != ' ' ==> r[k] == s[k]
  {
    seq(|s|, k requires 0 <= k < |s| => if s[k] == ' ' then '-' else s[k])
  }

  /** `s.hasPrefix(p)`. */
  predicate HasPrefix(s: string, p: string) {
    |p| <= |s| && s[..|p|] == p
  }

  /** The length of the token that starts `s`: the characters before the first
      separator. */
  function TokenLength(s: string, sep: char): (n: nat)
    ensures n <= |s|
    ensures forall k :: 0 <= k < n ==> s[k] != sep
    ensures n < |s| ==> s[n] == sep
  {
    if s == [] || s[0] == sep then 0 else 1 + TokenLength(s[1..], sep)
  }

  /** `split(separator:)` with Swift's default of omitting empty pieces: the
      maximal runs of non-separator characters, in order. */
  function Split(s: string, sep: char): (parts: seq<string>)
    ensures forall p :: p in parts ==> p != [] && sep !in p
    decreases |s|
  {
    if s == [] then []
    else if s[0] == sep then Split(s[1..], sep)
    else
      var n := TokenLength(s, sep);
      [s[..n]] + Split(s[n..], sep)
  }

  /** Splitting two non-empty separator-free words joined by separators
      gives back the two words: the inverse of joining. */
  lemma {:induction false} SplitJoin(a: string, gap: string, b: string, sep: char)
    requires a != [] && b != [] && sep !in a && sep !in b
    requires gap != [] && forall k :: 0 <= k < |gap| ==> gap[k] == sep
    ensures Split(a + gap + b, sep) == [a, b]
  {
    var s := a + gap + b;
    TokenLengthOfWord(a, gap + b, sep);
    assert s[..|a|] == a && s[|a|..] == gap + b;
    SplitSkipsSeparators(gap, b, sep);
    TokenLengthOfWord(b, [], sep);
    assert b[..|b|] == b && b[|b|..] == [];
    assert Split(b, sep) == [b] + Split([], sep);
  }

  lemma {:induction false} TokenLengthOfWord(w: string, rest: string, sep: char)
    requires sep !in w
    requires rest == [] || rest[0] == sep
    ensures TokenLength(w + rest, sep) == |w|
  {
    assert forall k :: 0 <= k < |w| ==> (w + rest)[k] == w[k];
    if rest != [] {
      assert (w + rest)[|w|] == sep;
    }
  }

  lemma {:induction false} SplitSkipsSeparators(gap: string, b: string, sep: char)
    requires forall k :: 0 <= k < |gap| ==> gap[k] == sep
    requires b != [] && b[0] != sep
    ensures Split(gap + b, sep) == Split(b, sep)
    decreases |gap|
  {
    if gap == [] {
      assert gap + b == b;
    } else {
      assert (gap + b)[0] == sep;
      assert (gap + b)[1..] == gap[1..] + b;
      SplitSkipsSeparators(gap[1..], b, sep);
    }
  }

  predicate IsDigit(c: char) {
    '0' <= c <= '9'
  }

  predicate AllDigits(s: string) {
    forall k :: 0 <= k < |s| ==> IsDigit(s[k])
  }

  function DigitChar(d: nat): (c: char)
    requires d < 10
    ensures IsDigit(c)
  {
    ('0' as int + d) as char
  }

  /** The value of a string of decimal digits, most significant first. */
  function DigitsValue(s: string): nat
    requires AllDigits(s)
  {
    if s == [] then 0
    else DigitsValue(s[..|s| - 1]) * 10 + (s[|s| - 1] as int - '0' as int)
  }

  /** String interpolation `"\(n)"` of a non-negative integer: the shortest
      decimal spelling. */
  function NatToString(n: nat): (r: string)
    ensures r != [] && AllDigits(r)
    ensures |r| > 1 ==> r[0] != '0'
  {
    if n < 10 then [DigitChar(n)] else NatToString(n / 10) + [DigitChar(n % 10)]
  }

  /** Reading back the decimal spelling gives the number. */
  lemma {:induction false} NatToStringValue(n: nat)
    ensures DigitsValue(NatToString(n)) == n
  {
    if n >= 10 {
      var s := NatToString(n);
      assert s[..|s| - 1] == NatToString(n / 10);
      NatToStringValue(n / 10);
    }
  }

  /** Exactly `width` decimal digits of `n`, zero-padded on the left: the
      `yyyy`, `MM` and `dd` fields of a date pattern. */
  function Fixed(n: nat, width: nat): (r: string)
    ensures |r| == width && AllDigits(r)
  {
    if width == 0 then [] else Fixed(n / 10, width - 1) + [DigitChar(n % 10)]
  }

  function Pow10(k: nat): (p: nat)
    ensures p > 0
  {
    if k == 0 then 1 else 10 * Pow10(k - 1)
  }

  /** A string of `k` digits denotes a number below `10^k`. */
  lemma {:induction false} DigitsValueBound(s: string)
    requires AllDigits(s)
    ensures DigitsValue(s) < Pow10(|s|)
  {
    if s != [] {
      DigitsValueBound(s[..|s| - 1]);
    }
  }

  /** A number that fits in `width` digits is read back from its padded form. */
  lemma {:induction false} FixedValue(n: nat, width: nat)
    requires n < Pow10(width)
    ensures DigitsValue(Fixed(n, width)) == n
  {
    if width > 0 {
      var s := Fixed(n, width);
      assert s[..|s| - 1] == Fixed(n / 10, width - 1);
      FixedValue(n / 10, width - 1);
    }
  }

  const Int64Min: int := -0x8000_0000_0000_0000
  const Int64Max: int := 0x7FFF_FFFF_FFFF_FFFF

  /** `Int(s)` on a 64-bit platform: an optional `+` or `-` sign, then at least
      one decimal digit and nothing else, with a value that fits in 64 bits. */
  function ParseInt(s: string): (r: Option<int>)
    ensures r.Some? ==> Int64Min <= r.value <= Int64Max
  {
    if s == [] then None
    else
      var negative := s[0] == '-';
      var digits := if s[0] == '+' || s[0] == '-' then s[1..] else s;
      if digits == [] || !AllDigits(digits) then None
      else
        var v: int := if negative then -(DigitsValue(digits) as int) else DigitsValue(digits);
        if Int64Min <= v <= Int64Max then Some(v) else None
  }

  /** `Int("\(n)") == n` for every non-negative 64-bit `n`. */
  lemma ParseIntOfNat(n: nat)
    requires n <= Int64Max
    ensures ParseInt(NatToString(n)) == Some(n)
  {
    NatToStringValue(n);
  }
}
