/** Character classes and string helpers shared by the form validators, the
    input filters and the display helpers.  Strings are sequences of Unicode
    scalar values. */
module Text {

  /** JavaScript's `\d`: an ASCII decimal digit. */
  predicate IsDigit(c: char) {
    '0' <= c <= '9'
  }

  /** `[a-zA-Z]`: an ASCII letter. */
  predicate IsAsciiLetter(c: char) {
    ('a' <= c <= 'z') || ('A' <= c <= 'Z')
  }

  /** JavaScript's `\s`, which is also the set `String.prototype.trim`
      removes: WhiteSpace and LineTerminator of ECMA-262, section 12.2 and 12.3. */
  predicate IsWhitespace(c: char) {
    || c == ' ' || c == '\t' || c == '\n' || c == '\r'
    || c == '\U{000B}' || c == '\U{000C}' || c == '\U{00A0}' || c == '\U{FEFF}'
    || c == '\U{1680}' || ('\U{2000}' <= c <= '\U{200A}')
    || c == '\U{2028}' || c == '\U{2029}' || c == '\U{202F}' || c == '\U{205F}'
    || c == '\U{3000}'
  }

  /** `!s.trim()`: the string is empty once surrounding whitespace is removed,
      that is, it holds nothing but whitespace. */
  predicate IsBlank(s: seq<char>) {
    forall i :: 0 <= i < |s| ==> IsWhitespace(s[i])
  }

  predicate AllDigits(s: seq<char>) {
    forall i :: 0 <= i < |s| ==> IsDigit(s[i])
  }

  function Min(a: int, b: int): int {
    if a <= b then a else b
  }

  /** `s.replace(/\D/g, '')`: the digits of `s`, in order. */
  function Digits(s: seq<char>): (r: seq<char>)
    ensures AllDigits(r)
    ensures |r| <= |s|
    ensures AllDigits(s) ==> r == s
  {
    if s == [] then []
    else if IsDigit(s[0]) then [s[0]] + Digits(s[1..])
    else Digits(s[1..])
  }

  /** The filter keeps every digit of `s`, as often as `s` has it, and
      nothing else: the non-digits are dropped, not rewritten. */
  lemma {:induction false} DigitsKeepsDigits(s: seq<char>)
    ensures forall c :: multiset(Digits(s))[c] == (if IsDigit(c) then multiset(s)[c] else 0)
  {
    if s != [] {
      assert s == [s[0]] + s[1..];
      DigitsKeepsDigits(s[1..]);
    }
  }

  /** `Digits` distributes over concatenation. */
  lemma {:induction false} DigitsAppend(a: seq<char>, b: seq<char>)
    ensures Digits(a + b) == Digits(a) + Digits(b)
  {
    if a == [] {
      assert a + b == b;
    } else {
      assert (a + b)[1..] == a[1..] + b;
      DigitsAppend(a[1..], b);
    }
  }

  /** `s.slice(-k)` for k > 0: the last `min(k, |s|)` characters. */
  function LastChars(s: seq<char>, k: nat): (r: seq<char>)
    requires k > 0
    ensures |r| == Min(k, |s|)
    ensures s == s[..|s| - |r|] + r
  {
    if |s| <= k then s else s[|s| - k..]
  }

  function DigitChar(d: nat): (c: char)
    requires d < 10
    ensures IsDigit(c)
  {
    (d + '0' as int) as char
  }

  function DigitValue(c: char): (d: nat)
    requires IsDigit(c)
    ensures d < 10 && DigitChar(d) == c
  {
    (c as int - '0' as int)
  }

  /** `String(n)` for a non-negative integer: its decimal digits, most
      significant first, without leading zeros. */
  function DecimalString(n: nat): (r: seq<char>)
    ensures |r| >= 1 && AllDigits(r)
  {
    if n < 10 then [DigitChar(n)]
    else DecimalString(n / 10) + [DigitChar(n % 10)]
  }

  /** The number a string of decimal digits denotes. */
  function DecimalValue(s: seq<char>): nat
    requires AllDigits(s)
  {
    if s == [] then 0
    else DecimalValue(s[..|s| - 1]) * 10 + DigitValue(s[|s| - 1])
  }

  function Pow10(k: nat): (r: nat)
    ensures r >= 1
  {
    if k == 0 then 1 else 10 * Pow10(k - 1)
  }

  /** Reading back the decimal string of `n` gives `n`. */
  lemma {:induction false} DecimalRoundTrip(n: nat)
    ensures DecimalValue(DecimalString(n)) == n
  {
    var s := DecimalString(n);
    if n < 10 {
      assert s[..0] == [];
    } else {
      assert s[..|s| - 1] == DecimalString(n / 10);
      DecimalRoundTrip(n / 10);
    }
  }

  /** `n` has at most `k` decimal digits when n < 10^k, and at least `k`
      when 10^(k-1) <= n. */
  lemma {:induction false} DecimalLengthBounds(n: nat, k: nat)
    requires k >= 1
    ensures n < Pow10(k) ==> |DecimalString(n)| <= k
    ensures Pow10(k - 1) <= n ==> |DecimalString(n)| >= k
  {
    if n >= 10 && k >= 2 {
      DecimalLengthBounds(n / 10, k - 1);
    } else if n < 10 && k >= 2 {
      Pow10AtLeastTen(k - 1);
    }
  }

  lemma Pow10AtLeastTen(k: nat)
    requires k >= 1
    ensures Pow10(k) >= 10
  {
  }

  /** The last `k` digits of a digit string denote its value modulo 10^k. */
  lemma {:induction false} SuffixValue(s: seq<char>, k: nat)
    requires AllDigits(s) && k <= |s|
    ensures DecimalValue(s[|s| - k..]) == DecimalValue(s) % Pow10(k)
  {
    if k == 0 {
      assert s[|s|..] == [];
    } else {
      var init := s[..|s| - 1];
      var last := DigitValue(s[|s| - 1]);
      SuffixValue(init, k - 1);
      var t := s[|s| - k..];
      assert t[..|t| - 1] == init[|init| - (k - 1)..];
      assert DecimalValue(t) == DecimalValue(init[|init| - (k - 1)..]) * 10 + last;
      ModuloShift(DecimalValue(init), last, Pow10(k - 1));
    }
  }

  /** (10a + d) mod 10m == 10 (a mod m) + d for a digit d. */
  lemma ModuloShift(a: nat, d: nat, m: nat)
    requires d < 10 && m >= 1
    ensures (a * 10 + d) % (10 * m) == (a % m) * 10 + d
  {
    var q, r := a / m, a % m;
    assert a * 10 + d == q * (10 * m) + (r * 10 + d) by {
      assert a == q * m + r;
    }
    ModuloUnique(a * 10 + d, 10 * m, q, r * 10 + d);
  }

  /** A quotient and remainder pair is unique. */
  lemma ModuloUnique(x: nat, m: nat, q: int, r: int)
    requires m >= 1 && x == q * m + r && 0 <= r < m
    ensures x % m == r
  {
    var k := q - x / m;
    assert k * m == x % m - r;
    MultipleBounds(k, m);
  }

  /** A non-zero multiple of m lies at least m away from zero. */
  lemma MultipleBounds(k: int, m: nat)
    ensures k >= 1 ==> k * m >= m
    ensures k <= -1 ==> k * m <= -(m as int)
  {
  }
}
