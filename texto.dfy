/** String helpers standing in for the Python and JavaScript library calls the
    core makes: `re.sub(r'[^0-9]', '', s)` / `s.replace(/\D/g, '')`,
    `str.strip()` / `String.prototype.trim()`, `lower()` / `toLowerCase()`,
    `upper()`, `int()`, `str.split`, `", ".join`, `f"{n:06d}"` and the UTF-16
    `.length` of JavaScript strings. */
module Texto {
  import opened Base

  // ---------------------------------------------------------------------------
  // Digits
  // ---------------------------------------------------------------------------

  predicate IsDigit(c: char) { '0' <= c <= '9' }

  predicate AllDigits(s: string) { forall i :: 0 <= i < |s| ==> IsDigit(s[i]) }

  function DigitValue(c: char): int { c as int - '0' as int }

  function DigitChar(d: int): char
    requires 0 <= d < 10
  {
    ('0' as int + d) as char
  }

  /** The characters of `s` that are ASCII digits, in order. */
  function Digits(s: string): (r: string)
    ensures |r| <= |s|
    ensures AllDigits(r)
  {
    if s == [] then [] else (if IsDigit(s[0]) then [s[0]] else []) + Digits(s[1..])
  }

  lemma {:induction false} DigitsConcat(a: string, b: string)
    ensures Digits(a + b) == Digits(a) + Digits(b)
  {
    if a != [] {
      assert (a + b)[0] == a[0];
      assert (a + b)[1..] == a[1..] + b;
      DigitsConcat(a[1..], b);
    } else {
      assert a + b == b;
    }
  }

  lemma {:induction false} DigitsOfAllDigits(s: string)
    requires AllDigits(s)
    ensures Digits(s) == s
  {
    if s != [] {
      DigitsOfAllDigits(s[1..]);
    }
  }

  /** Digits(s) contains no non-digit, so filtering it again changes nothing. */
  lemma DigitsIdempotent(s: string)
    ensures Digits(Digits(s)) == Digits(s)
  {
    DigitsOfAllDigits(Digits(s));
  }

  lemma {:induction false} DigitsNoDigits(s: string)
    requires forall i :: 0 <= i < |s| ==> !IsDigit(s[i])
    ensures Digits(s) == []
  {
    if s != [] {
      DigitsNoDigits(s[1..]);
    }
  }

  // ---------------------------------------------------------------------------
  // Whitespace and trimming
  // ---------------------------------------------------------------------------

  /** Python's `str.isspace`, the set `str.strip()` removes. */
  predicate PySpace(c: char)
  {
    var n := c as int;
    n == 0x20 || 0x09 <= n <= 0x0D || 0x1C <= n <= 0x1F || n == 0x85 || n == 0xA0
    || n == 0x1680 || 0x2000 <= n <= 0x200A || n == 0x2028 || n == 0x2029
    || n == 0x202F || n == 0x205F || n == 0x3000
  }

  /** ECMAScript WhiteSpace and LineTerminator, the set `trim()` removes and `\s` matches. */
  predicate JsSpace(c: char)
  {
    var n := c as int;
    n == 0x20 || 0x09 <= n <= 0x0D || n == 0xA0 || n == 0x1680 || 0x2000 <= n <= 0x200A
    || n == 0x2028 || n == 0x2029 || n == 0x202F || n == 0x205F || n == 0x3000 || n == 0xFEFF
  }

  function TrimStart(s: string, ws: char -> bool): (r: string)
    ensures |r| <= |s| && r == s[|s| - |r|..]
    ensures r == [] || !ws(r[0])
    ensures forall i :: 0 <= i < |s| - |r| ==> ws(s[i])
  {
    if s != [] && ws(s[0]) then TrimStart(s[1..], ws) else s
  }

  function TrimEnd(s: string, ws: char -> bool): (r: string)
    ensures |r| <= |s| && r == s[..|r|]
    ensures r == [] || !ws(r[|r| - 1])
    ensures forall i :: |r| <= i < |s| ==> ws(s[i])
  {
    if s != [] && ws(s[|s| - 1]) then TrimEnd(s[..|s| - 1], ws) else s
  }

  /** How many leading `ws` characters Trim removes. */
  function TrimOffset(s: string, ws: char -> bool): nat
  {
    |s| - |TrimStart(s, ws)|
  }

  /** `s` without its leading and trailing `ws` characters. */
  function Trim(s: string, ws: char -> bool): (r: string)
    ensures r == [] || (!ws(r[0]) && !ws(r[|r| - 1]))
    ensures TrimOffset(s, ws) + |r| <= |s| && r == s[TrimOffset(s, ws)..TrimOffset(s, ws) + |r|]
    ensures forall i :: 0 <= i < TrimOffset(s, ws) ==> ws(s[i])
    ensures forall i :: TrimOffset(s, ws) + |r| <= i < |s| ==> ws(s[i])
  {
    var t := TrimStart(s, ws);
    var r := TrimEnd(t, ws);
    assert r == s[|s| - |t|..|s| - |t| + |r|];
    assert forall i :: |s| - |t| + |r| <= i < |s| ==> s[i] == t[i - (|s| - |t|)];
    r
  }

  lemma TrimNoBorderSpace(s: string, ws: char -> bool)
    requires s != [] && !ws(s[0]) && !ws(s[|s| - 1])
    ensures Trim(s, ws) == s
  {
  }

  lemma {:induction false} TrimStartConcat(pre: string, suf: string, ws: char -> bool)
    requires suf != [] && !ws(suf[0])
    ensures TrimStart(pre + suf, ws) == TrimStart(pre, ws) + suf
  {
    if pre == [] {
      assert pre + suf == suf;
    } else {
      assert (pre + suf)[0] == pre[0] && (pre + suf)[1..] == pre[1..] + suf;
      if ws(pre[0]) {
        TrimStartConcat(pre[1..], suf, ws);
      }
    }
  }

  /** Trimming text that ends in a word only drops the text's leading blanks. */
  lemma TrimAppendWord(pre: string, suf: string, ws: char -> bool)
    requires suf != [] && !ws(suf[0]) && !ws(suf[|suf| - 1])
    ensures Trim(pre + suf, ws) == TrimStart(pre, ws) + suf
  {
    TrimStartConcat(pre, suf, ws);
    var t := TrimStart(pre, ws) + suf;
    assert t[|t| - 1] == suf[|suf| - 1];
  }

  /** Python's `str.strip()`. */
  function PyStrip(s: string): string { Trim(s, PySpace) }

  /** JavaScript's `String.prototype.trim()`. */
  function JsTrim(s: string): string { Trim(s, JsSpace) }

  lemma TrimIdempotent(s: string, ws: char -> bool)
    ensures Trim(Trim(s, ws), ws) == Trim(s, ws)
  {
  }

  /** Text without digits around a string adds no digits to it. */
  lemma DigitsEntreNaoDigitos(pre: string, r: string, post: string)
    requires forall i :: 0 <= i < |pre| ==> !IsDigit(pre[i])
    requires forall i :: 0 <= i < |post| ==> !IsDigit(post[i])
    ensures Digits(pre + r + post) == Digits(r)
  {
    DigitsConcat(pre + r, post);
    DigitsConcat(pre, r);
    DigitsNoDigits(pre);
    DigitsNoDigits(post);
  }

  /** A string cut in three at two offsets is the three parts joined. */
  lemma TresPartes(s: string, a: nat, b: nat)
    requires a <= b <= |s|
    ensures s == s[..a] + s[a..b] + s[b..]
  {
    assert s[..b] == s[..a] + s[a..b];
  }

  /** When no digit lies outside `s[a..b]`, the digits are those of that slice. */
  lemma DigitsDoMeio(s: string, a: nat, b: nat)
    requires a <= b <= |s|
    requires forall i :: 0 <= i < a ==> !IsDigit(s[i])
    requires forall i :: b <= i < |s| ==> !IsDigit(s[i])
    ensures Digits(s) == Digits(s[a..b])
  {
    TresPartes(s, a, b);
    var pre, post := s[..a], s[b..];
    forall i | 0 <= i < |pre| ensures !IsDigit(pre[i]) {
      assert pre[i] == s[i];
    }
    forall i | 0 <= i < |post| ensures !IsDigit(post[i]) {
      assert post[i] == s[b + i];
    }
    DigitsEntreNaoDigitos(pre, s[a..b], post);
  }

  /** Trimming only removes whitespace, and no whitespace is a digit. */
  lemma DigitsTrim(s: string, ws: char -> bool)
    requires forall c :: ws(c) ==> !IsDigit(c)
    ensures Digits(Trim(s, ws)) == Digits(s)
  {
    var r, o := Trim(s, ws), TrimOffset(s, ws);
    assert forall i :: 0 <= i < o ==> !IsDigit(s[i]);
    assert forall i :: o + |r| <= i < |s| ==> !IsDigit(s[i]);
    DigitsDoMeio(s, o, o + |r|);
  }

  lemma DigitsPyStrip(s: string)
    ensures Digits(PyStrip(s)) == Digits(s)
  {
    DigitsTrim(s, PySpace);
  }

  // ---------------------------------------------------------------------------
  // Lengths and case mapping
  // ---------------------------------------------------------------------------

  /** JavaScript's `.length`: UTF-16 code units, two for a character outside the BMP. */
  function JsLength(s: string): (n: nat)
    ensures |s| <= n <= 2 * |s|
  {
    if s == [] then 0 else (if s[0] as int > 0xFFFF then 2 else 1) + JsLength(s[1..])
  }

  /** The lower-case form of one character: A-Z, KELVIN SIGN (to k) and
      LATIN CAPITAL LETTER I WITH DOT ABOVE (to i + COMBINING DOT ABOVE), which
      are all the characters whose Python/JavaScript lower case contains an ASCII
      letter; every other character is left as it is. */
  function LowerChar(c: char): string
  {
    if 'A' <= c <= 'Z' then [(c as int + 32) as char]
    else if c as int == 0x212A then "k"
    else if c as int == 0x130 then ['i', 0x307 as char]
    else [c]
  }

  function Lower(s: string): string
  {
    if s == [] then [] else LowerChar(s[0]) + Lower(s[1..])
  }

  lemma {:induction false} LowerConcat(a: string, b: string)
    ensures Lower(a + b) == Lower(a) + Lower(b)
  {
    if a != [] {
      assert (a + b)[0] == a[0];
      assert (a + b)[1..] == a[1..] + b;
      LowerConcat(a[1..], b);
    } else {
      assert a + b == b;
    }
  }

  /** Lower-casing twice is lower-casing once: every character LowerChar
      produces is left alone by it. */
  lemma {:induction false} LowerIdempotent(s: string)
    ensures Lower(Lower(s)) == Lower(s)
  {
    if s != [] {
      var c := s[0];
      LowerConcat(LowerChar(c), Lower(s[1..]));
      LowerIdempotent(s[1..]);
      var l := LowerChar(c);
      if |l| == 2 {
        assert l == [l[0]] + [l[1]];
        LowerConcat([l[0]], [l[1]]);
      }
    }
  }

  /** The upper-case form of one character: a-z, DOTLESS I (to I) and LONG S (to S),
      which are all the characters whose Python upper case is one ASCII letter. */
  function UpperChar(c: char): char
  {
    if 'a' <= c <= 'z' then (c as int - 32) as char
    else if c as int == 0x131 then 'I'
    else if c as int == 0x17F then 'S'
    else c
  }

  function Upper(s: string): (r: string)
    ensures |r| == |s|
    ensures forall i :: 0 <= i < |s| ==> r[i] == UpperChar(s[i])
  {
    if s == [] then [] else [UpperChar(s[0])] + Upper(s[1..])
  }

  // ---------------------------------------------------------------------------
  // Decimal numbers
  // ---------------------------------------------------------------------------

  /** The value of a string of ASCII digits, read left to right. */
  function ParseDigits(s: string): nat
    requires AllDigits(s)
  {
    if s == [] then 0 else ParseDigits(s[..|s| - 1]) * 10 + DigitValue(s[|s| - 1])
  }

  /** Python's `str(n)` for a natural number. */
  function NatToString(n: nat): (s: string)
    ensures |s| >= 1 && AllDigits(s)
  {
    if n < 10 then [DigitChar(n)] else NatToString(n / 10) + [DigitChar(n % 10)]
  }

  lemma {:induction false} ParseNatToString(n: nat)
    ensures ParseDigits(NatToString(n)) == n
  {
    var s := NatToString(n);
    if n >= 10 {
      assert s[..|s| - 1] == NatToString(n / 10);
      ParseNatToString(n / 10);
    }
  }

  function Zeros(k: nat): (s: string)
    ensures |s| == k && AllDigits(s)
  {
    if k == 0 then [] else Zeros(k - 1) + "0"
  }

  /** `s` padded on the left with zeros to width `w` (never truncated). */
  function ZeroPad(s: string, w: nat): (r: string)
    ensures |r| == if |s| < w then w else |s|
    ensures AllDigits(s) ==> AllDigits(r)
  {
    Zeros(if |s| < w then w - |s| else 0) + s
  }

  lemma {:induction false} ParseZerosPrefix(k: nat, s: string)
    requires AllDigits(s)
    ensures ParseDigits(Zeros(k) + s) == ParseDigits(s)
  {
    if s == [] {
      ParseZeros(k);
      assert Zeros(k) + s == Zeros(k);
    } else {
      assert (Zeros(k) + s)[..|Zeros(k) + s| - 1] == Zeros(k) + s[..|s| - 1];
      ParseZerosPrefix(k, s[..|s| - 1]);
    }
  }

  lemma {:induction false} ParseZeros(k: nat)
    ensures ParseDigits(Zeros(k)) == 0
  {
    if k > 0 {
      var z := Zeros(k);
      assert z[..|z| - 1] == Zeros(k - 1);
      ParseZeros(k - 1);
    }
  }

  lemma ParseZeroPad(s: string, w: nat)
    requires AllDigits(s)
    ensures ParseDigits(ZeroPad(s, w)) == ParseDigits(s)
  {
    ParseZerosPrefix(if |s| < w then w - |s| else 0, s);
  }

  /** The body of a Python integer literal: digits, optionally grouped by single
      underscores between digits. */
  predicate DigitGroups(b: string)
  {
    && |b| > 0 && IsDigit(b[0]) && IsDigit(b[|b| - 1])
    && forall i :: 0 <= i < |b| ==> IsDigit(b[i]) || (b[i] == '_' && i + 1 < |b| && IsDigit(b[i + 1]))
  }

  /** Python's `int(s)` on a string: surrounding whitespace, one optional sign and
      underscore-grouped ASCII digits; None where Python raises ValueError. */
  function PyInt(s: string): Option<int>
  {
    var t := PyStrip(s);
    if |t| > 0 && (t[0] == '+' || t[0] == '-') then
      var b := t[1..];
      var v: int := ParseDigits(Digits(b));
      if DigitGroups(b) then Some(if t[0] == '-' then -v else v)
      else None
    else if DigitGroups(t) then Some(ParseDigits(Digits(t)))
    else None
  }

  /** On a plain digit string `int()` is the decimal value. */
  lemma PyIntDigits(s: string)
    requires AllDigits(s) && s != []
    ensures PyInt(s) == Some(ParseDigits(s))
  {
    TrimNoBorderSpace(s, PySpace);
    assert DigitGroups(s);
    DigitsOfAllDigits(s);
  }

  /** Without a minus sign, whatever `int()` accepts is non-negative. */
  lemma PyIntNoMinus(s: string)
    requires '-' !in s
    ensures PyInt(s).Some? ==> PyInt(s).value >= 0
  {
    var t := PyStrip(s);
    if |t| > 0 {
      assert t[0] == s[TrimOffset(s, PySpace)];
    }
  }

  // ---------------------------------------------------------------------------
  // Searching
  // ---------------------------------------------------------------------------

  /** Position of the first `c` in `s`, or |s| when there is none. */
  function IndexOf(s: string, c: char): (k: nat)
    ensures k <= |s|
    ensures k < |s| ==> s[k] == c
    ensures forall i :: 0 <= i < k ==> s[i] != c
  {
    if s == [] then 0 else if s[0] == c then 0 else 1 + IndexOf(s[1..], c)
  }

  /** Position of the last `c` in `s`, or -1 when there is none. */
  function LastIndexOf(s: string, c: char): (k: int)
    ensures -1 <= k < |s|
    ensures k >= 0 ==> s[k] == c
    ensures forall i :: k < i < |s| ==> s[i] != c
  {
    if s == [] then -1 else if s[|s| - 1] == c then |s| - 1 else LastIndexOf(s[..|s| - 1], c)
  }

  // ---------------------------------------------------------------------------
  // Splitting and joining
  // ---------------------------------------------------------------------------

  /** Python's `s.split(d)` for a one-character separator. */
  function Split(s: string, d: char): (parts: seq<string>)
    ensures |parts| >= 1
  {
    if s == [] then [""]
    else
      var rest := Split(s[1..], d);
      if s[0] == d then [""] + rest else [[s[0]] + rest[0]] + rest[1..]
  }

  /** No part contains the separator. */
  lemma {:induction false} SplitPartsFree(s: string, d: char)
    ensures forall k :: 0 <= k < |Split(s, d)| ==> d !in Split(s, d)[k]
  {
    if s != [] {
      SplitPartsFree(s[1..], d);
    }
  }

  lemma {:induction false} SplitNoSeparator(s: string, d: char)
    requires d !in s
    ensures Split(s, d) == [s]
  {
    if s != [] {
      assert s[0] != d && d !in s[1..];
      SplitNoSeparator(s[1..], d);
      assert [s[0]] + s[1..] == s;
    }
  }

  lemma {:induction false} SplitAt(a: string, d: char, b: string)
    requires d !in a
    ensures Split(a + [d] + b, d) == [a] + Split(b, d)
  {
    if a != [] {
      assert (a + [d] + b)[0] == a[0] != d;
      assert (a + [d] + b)[1..] == a[1..] + [d] + b;
      SplitAt(a[1..], d, b);
      assert [a[0]] + a[1..] == a;
    } else {
      assert (a + [d] + b)[1..] == b;
    }
  }

  /** A string with a single separator splits into the text before and after it. */
  lemma SplitUnico(s: string, d: char, i: int)
    requires 0 <= i < |s| && s[i] == d
    requires forall k :: 0 <= k < |s| && k != i ==> s[k] != d
    ensures Split(s, d) == [s[..i], s[i + 1..]]
  {
    var a, b := s[..i], s[i + 1..];
    assert s == a + [d] + b;
    assert d !in a by {
      forall k | 0 <= k < |a| ensures a[k] != d { assert a[k] == s[k]; }
    }
    assert d !in b by {
      forall k | 0 <= k < |b| ensures b[k] != d { assert b[k] == s[i + 1 + k]; }
    }
    SplitAt(a, d, b);
    SplitNoSeparator(b, d);
  }

  /** Python's `sep.join(parts)`. */
  function Join(parts: seq<string>, sep: string): string
  {
    if |parts| == 0 then ""
    else if |parts| == 1 then parts[0]
    else Join(parts[..|parts| - 1], sep) + sep + parts[|parts| - 1]
  }
}
