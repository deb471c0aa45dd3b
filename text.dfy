/** The parts of Python's `str` that the modelled code relies on. */
module Text {

  predicate IsAsciiUpper(c: char) { 'A' <= c <= 'Z' }

  predicate IsAsciiLetter(c: char) { 'A' <= c <= 'Z' || 'a' <= c <= 'z' }

  predicate IsDigit(c: char) { '0' <= c <= '9' }

  predicate AllUpper(s: string) { forall i :: 0 <= i < |s| ==> IsAsciiUpper(s[i]) }

  predicate AllDigits(s: string) { forall i :: 0 <= i < |s| ==> IsDigit(s[i]) }

  /**
   * `c.upper()` for one character. Exact for every character whose upper-case
   * form is made of ASCII letters: the ASCII lower-case letters, dotless i,
   * long s, sharp s and the Latin ligatures U+FB00..U+FB06. Every other
   * character is kept; Python maps some of those to other non-ASCII text,
   * which, like the kept character, never spells an ASCII name.
   */
  function UpperChar(c: char): (r: string)
    ensures 1 <= |r| <= 3
    ensures IsAsciiLetter(c) ==> r == [if IsAsciiUpper(c) then c else (c as int - 32) as char]
  {
    if 'a' <= c <= 'z' then [(c as int - 32) as char]
    else if c == '\U{0131}' then "I"
    else if c == '\U{017F}' then "S"
    else if c == '\U{00DF}' then "SS"
    else if c == '\U{FB00}' then "FF"
    else if c == '\U{FB01}' then "FI"
    else if c == '\U{FB02}' then "FL"
    else if c == '\U{FB03}' then "FFI"
    else if c == '\U{FB04}' then "FFL"
    else if c == '\U{FB05}' || c == '\U{FB06}' then "ST"
    else [c]
  }

  /** `s.upper()`: each character upper-cased, possibly into several. */
  function Upper(s: string): (r: string)
    ensures |s| <= |r| <= 3 * |s|
  {
    if s == [] then [] else UpperChar(s[0]) + Upper(s[1..])
  }

  /** `c.lower()` for an ASCII character. */
  function LowerChar(c: char): char {
    if IsAsciiUpper(c) then (c as int + 32) as char else c
  }

  /** `s.lower()` on ASCII text, as used on enum member names. */
  function LowerAscii(s: string): (r: string)
    ensures |r| == |s|
  {
    seq(|s|, i requires 0 <= i < |s| => LowerChar(s[i]))
  }

  /** Upper-casing the lower-case spelling of an upper-case ASCII name gives the name back. */
  lemma {:induction false} UpperOfLower(s: string)
    requires AllUpper(s)
    ensures Upper(LowerAscii(s)) == s
  {
    if s != [] {
      UpperOfLower(s[1..]);
      assert LowerAscii(s)[1..] == LowerAscii(s[1..]);
    }
  }

  /** Upper-casing ASCII letters gives as many upper-case ASCII letters. */
  lemma {:induction false} UpperOfLetters(s: string)
    requires forall i :: 0 <= i < |s| ==> IsAsciiLetter(s[i])
    ensures |Upper(s)| == |s| && AllUpper(Upper(s))
  {
    if s != [] {
      UpperOfLetters(s[1..]);
    }
  }

  /** An upper-case ASCII name is its own upper-case form. */
  lemma {:induction false} UpperOfUpper(s: string)
    requires AllUpper(s)
    ensures Upper(s) == s
  {
    if s != [] {
      UpperOfUpper(s[1..]);
    }
  }

  /** `sep.join(parts)`: starts with the first part and ends with the last. */
  function Join(sep: string, parts: seq<string>): (r: string)
    ensures parts == [] ==> r == []
    ensures parts != [] ==> parts[0] <= r && |parts[|parts| - 1]| <= |r|
    ensures parts != [] ==> r[|r| - |parts[|parts| - 1]|..] == parts[|parts| - 1]
  {
    if parts == [] then ""
    else if |parts| == 1 then parts[0]
    else
      var tail := Join(sep, parts[1..]);
      assert (parts[0] + sep + tail)[|parts[0] + sep + tail| - |parts[|parts| - 1]|..]
          == tail[|tail| - |parts[|parts| - 1]|..];
      parts[0] + sep + tail
  }

  /** `s.rstrip(c)`: every trailing `c` removed. */
  function RStrip(s: string, c: char): (r: string)
    ensures r <= s
    ensures r == [] || r[|r| - 1] != c
    ensures forall i :: |r| <= i < |s| ==> s[i] == c
  {
    if s != [] && s[|s| - 1] == c then RStrip(s[..|s| - 1], c) else s
  }

  /** Stripping twice strips nothing more. */
  lemma RStripIdempotent(s: string, c: char)
    ensures RStrip(RStrip(s, c), c) == RStrip(s, c)
  {
  }

  /** The stripped text is the same however many `c`s the input ends with. */
  lemma {:induction false} RStripIgnoresTrailing(s: string, c: char, n: nat)
    ensures RStrip(s + seq(n, _ => c), c) == RStrip(s, c)
  {
    var t := s + seq(n, _ => c);
    if n == 0 {
      assert t == s;
    } else {
      assert t[..|t| - 1] == s + seq(n - 1, _ => c);
      RStripIgnoresTrailing(s, c, n - 1);
    }
  }

  // ---------------------------------------------------------------------------
  // Decimal digits

  function Pow10(n: nat): (r: nat)
    ensures r >= 1
  {
    if n == 0 then 1 else 10 * Pow10(n - 1)
  }

  function DigitChar(d: nat): (c: char)
    requires d < 10
    ensures IsDigit(c)
  {
    ('0' as int + d) as char
  }

  function DigitValue(c: char): (d: nat)
    requires IsDigit(c)
    ensures d < 10
  {
    c as int - '0' as int
  }

  /** `str(n)` for a non-negative integer: its decimal digits, no leading zero. */
  function DecimalString(n: nat): (r: string)
    ensures 1 <= |r| && AllDigits(r)
  {
    if n < 10 then [DigitChar(n)] else DecimalString(n / 10) + [DigitChar(n % 10)]
  }

  /** The last `width` decimal digits of `n`, zero-padded (`%0<width>d` for `n < 10^width`). */
  function PadDigits(n: nat, width: nat): (r: string)
    ensures |r| == width && AllDigits(r)
  {
    if width == 0 then [] else PadDigits(n / 10, width - 1) + [DigitChar(n % 10)]
  }

  /** The value of a string of decimal digits (`int(s)`, with `int("") == 0`). */
  function DigitsValue(s: string): nat
    requires AllDigits(s)
  {
    if s == [] then 0 else DigitsValue(s[..|s| - 1]) * 10 + DigitValue(s[|s| - 1])
  }

  /** Zero-padding loses nothing when the number fits the width. */
  lemma {:induction false} PadDigitsRoundTrip(n: nat, width: nat)
    requires n < Pow10(width)
    ensures DigitsValue(PadDigits(n, width)) == n
  {
    if width > 0 {
      var s := PadDigits(n, width);
      assert s[..|s| - 1] == PadDigits(n / 10, width - 1);
      PadDigitsRoundTrip(n / 10, width - 1);
    }
  }

  /** `int(str(n)) == n`. */
  lemma {:induction false} DecimalStringRoundTrip(n: nat)
    ensures DigitsValue(DecimalString(n)) == n
  {
    if n >= 10 {
      var s := DecimalString(n);
      assert s[..|s| - 1] == DecimalString(n / 10);
      DecimalStringRoundTrip(n / 10);
    }
  }

  /** A number of three or four digits prints as that many digits, which read back as the number. */
  lemma DecimalStringThreeOrFour(n: nat)
    requires 100 <= n <= 9999
    ensures 3 <= |DecimalString(n)| <= 4 && DigitsValue(DecimalString(n)) == n
  {
    assert Pow10(2) == 100 && Pow10(3) == 1000 && Pow10(4) == 10000;
    if n < 1000 {
      DecimalStringWidth(n, 3);
    } else {
      DecimalStringWidth(n, 4);
    }
    DecimalStringRoundTrip(n);
  }

  /** A number with exactly `width` digits prints as its zero-padded form. */
  lemma {:induction false} DecimalStringWidth(n: nat, width: nat)
    requires 1 <= width
    requires width == 1 || Pow10(width - 1) <= n
    requires n < Pow10(width)
    ensures DecimalString(n) == PadDigits(n, width)
    ensures |DecimalString(n)| == width
  {
    if n >= 10 {
      assert width > 1;
      assert n / 10 < Pow10(width - 1);
      if width > 2 {
        assert Pow10(width - 1) == 10 * Pow10(width - 2);
      }
      DecimalStringWidth(n / 10, width - 1);
    }
  }
}
