/**
 * The few PHP built-ins whose exact behaviour the callback depends on:
 * `empty()` on a string, `explode()` with a one-character separator,
 * the `(int)` cast of a string and the decimal rendering of an integer
 * that string concatenation performs.
 */
module Php {

  /** Bounds of PHP's 64-bit `int`. */
  const IntMax: int := 0x7FFF_FFFF_FFFF_FFFF
  const IntMin: int := -0x8000_0000_0000_0000

  /** `empty($s)` for a string `$s`: only "" and "0" are empty. */
  predicate Empty(s: string)
  {
    s == "" || s == "0"
  }

  /** Number of occurrences of `c` in `s`. */
  function Occurrences(c: char, s: string): nat
  {
    if s == [] then 0 else (if s[0] == c then 1 else 0) + Occurrences(c, s[1..])
  }

  /**
   * `explode(sep, s)`: the pieces of `s` between occurrences of `sep`.
   * There is always one piece more than there are separators, so the
   * empty string gives the single piece "".
   */
  function Explode(sep: char, s: string): (parts: seq<string>)
    ensures |parts| == Occurrences(sep, s) + 1
    ensures forall i :: 0 <= i < |parts| ==> sep !in parts[i]
    decreases |s|
  {
    if s == [] then [""]
    else
      var rest := Explode(sep, s[1..]);
      if s[0] == sep then [""] + rest
      else [[s[0]] + rest[0]] + rest[1..]
  }

  /** `implode(sep, parts)`: the pieces joined by `sep`. */
  function Implode(sep: char, parts: seq<string>): string
    requires |parts| >= 1
    decreases |parts|
  {
    if |parts| == 1 then parts[0] else parts[0] + [sep] + Implode(sep, parts[1..])
  }

  /** Exploding and then imploding gives back the original string. */
  lemma {:induction false} ImplodeExplode(sep: char, s: string)
    ensures Implode(sep, Explode(sep, s)) == s
    decreases |s|
  {
    if s != [] {
      var rest := Explode(sep, s[1..]);
      ImplodeExplode(sep, s[1..]);
      if s[0] == sep {
        assert Explode(sep, s) == [""] + rest;
        assert ([""] + rest)[1..] == rest;
        assert s == [sep] + s[1..];
      } else {
        var parts := [[s[0]] + rest[0]] + rest[1..];
        assert Explode(sep, s) == parts;
        if |rest| == 1 {
          assert s == [s[0]] + s[1..];
        } else {
          assert parts[1..] == rest[1..];
          assert Implode(sep, rest) == rest[0] + [sep] + Implode(sep, rest[1..]);
          assert s == [s[0]] + s[1..];
        }
      }
    }
  }

  /** A separator-free prefix stays glued to the first piece. */
  lemma {:induction false} ExplodePrefix(sep: char, w: string, t: string)
    requires sep !in w
    ensures Explode(sep, w + t) == [w + Explode(sep, t)[0]] + Explode(sep, t)[1..]
    decreases |w|
  {
    if w != [] {
      assert (w + t)[1..] == w[1..] + t;
      assert (w + t)[0] == w[0];
      ExplodePrefix(sep, w[1..], t);
      assert [w[0]] + (w[1..] + Explode(sep, t)[0]) == w + Explode(sep, t)[0];
    } else {
      var e := Explode(sep, t);
      assert w + t == t;
      assert w + e[0] == e[0];
      assert [e[0]] + e[1..] == e;
    }
  }

  /** Imploding separator-free pieces and exploding again gives back the pieces. */
  lemma {:induction false} ExplodeImplode(sep: char, parts: seq<string>)
    requires |parts| >= 1
    requires forall i :: 0 <= i < |parts| ==> sep !in parts[i]
    ensures Explode(sep, Implode(sep, parts)) == parts
    decreases |parts|
  {
    if |parts| == 1 {
      ExplodePrefix(sep, parts[0], "");
      assert parts[0] + "" == parts[0];
    } else {
      var tail := Implode(sep, parts[1..]);
      ExplodeImplode(sep, parts[1..]);
      assert Implode(sep, parts) == parts[0] + ([sep] + tail);
      ExplodePrefix(sep, parts[0], [sep] + tail);
      assert ([sep] + tail)[1..] == tail;
      assert Explode(sep, [sep] + tail) == [""] + parts[1..];
      assert parts[0] + "" == parts[0];
      assert parts == [parts[0]] + parts[1..];
    }
  }

  predicate IsDigit(c: char)
  {
    '0' <= c <= '9'
  }

  /** The white space PHP skips before a numeric string: space, \t, \n, \r, \v, \f. */
  predicate IsSpace(c: char)
  {
    c == ' ' || c == '\t' || c == '\n' || c == '\r' || c as int == 0x0B || c as int == 0x0C
  }

  predicate AllDigits(s: string)
  {
    forall i :: 0 <= i < |s| ==> IsDigit(s[i])
  }

  /** `s` without its leading white space. */
  function SkipSpace(s: string): (t: string)
    ensures |t| <= |s| && t == s[|s| - |t|..]
    ensures forall i :: 0 <= i < |s| - |t| ==> IsSpace(s[i])
    ensures t == [] || !IsSpace(t[0])
  {
    if s != [] && IsSpace(s[0]) then SkipSpace(s[1..]) else s
  }

  /** The longest prefix of `s` made of decimal digits. */
  function DigitPrefix(s: string): (d: string)
    ensures d <= s && AllDigits(d)
    ensures |d| == |s| || !IsDigit(s[|d|])
  {
    if s != [] && IsDigit(s[0]) then [s[0]] + DigitPrefix(s[1..]) else []
  }

  /** The value of a string of decimal digits, most significant first. */
  function DigitsValue(d: string): nat
    requires AllDigits(d)
  {
    if d == [] then 0 else DigitsValue(d[..|d| - 1]) * 10 + (d[|d| - 1] as int - '0' as int)
  }

  /**
   * The least magnitude an IEEE double rounds to infinity: halfway between
   * the largest finite double (2^1024 - 2^971) and 2^1024, which rounds to
   * the even neighbour 2^1024, so 2^1024 - 2^970.
   */
  const DoubleOverflow: int := 179769313486231580793728971405303415079934132710037826936173778980444968292764750946649017977587207096330286416692887910946555547851940402630657488671505820681908902000708383676273854845817711531764475730270069855571366959622842914819860834936475292719074168444365510704342711559699508093042880177904174497792

  /**
   * The integer PHP produces from the value of a numeric string. A value
   * that fits a 64-bit `int` is kept. Otherwise the string is read as a
   * double, and the double is capped to the `int` bounds, except that an
   * infinite double (a value of magnitude at least `DoubleOverflow`) gives 0.
   */
  function CapToInt(v: int): (r: int)
    ensures IntMin <= r <= IntMax
    ensures IntMin <= v <= IntMax ==> r == v
    ensures IntMax < v < DoubleOverflow ==> r == IntMax
    ensures -DoubleOverflow < v < IntMin ==> r == IntMin
    ensures v >= DoubleOverflow || v <= -DoubleOverflow ==> r == 0
  {
    if v >= DoubleOverflow || v <= -DoubleOverflow then 0
    else if v > IntMax then IntMax
    else if v < IntMin then IntMin
    else v
  }

  /**
   * `(int)$s`: leading white space is skipped, an optional sign is read,
   * then the longest run of digits; whatever follows is ignored and a
   * string with no leading digits gives 0.
   */
  function IntCast(s: string): (r: int)
    ensures IntMin <= r <= IntMax
  {
    var t := SkipSpace(s);
    if t != [] && (t[0] == '+' || t[0] == '-') then
      var v: int := DigitsValue(DigitPrefix(t[1..]));
      CapToInt(if t[0] == '-' then -v else v)
    else
      CapToInt(DigitsValue(DigitPrefix(t)))
  }

  /** The decimal rendering PHP gives a non-negative integer (`(string)$n`). */
  function Decimal(n: nat): (s: string)
    ensures |s| >= 1 && AllDigits(s)
    ensures s[0] != '0' || n == 0
  {
    (if n < 10 then "" else Decimal(n / 10)) + [('0' as int + n % 10) as char]
  }

  lemma {:induction false} DigitsValueDecimal(n: nat)
    ensures DigitsValue(Decimal(n)) == n
  {
    var s := Decimal(n);
    var last := [('0' as int + n % 10) as char];
    assert s[|s| - 1] as int - '0' as int == n % 10;
    if n >= 10 {
      assert s == Decimal(n / 10) + last;
      assert s[..|s| - 1] == Decimal(n / 10);
      DigitsValueDecimal(n / 10);
      assert DigitsValue(s) == (n / 10) * 10 + n % 10;
    } else {
      assert s == last;
      assert s[..|s| - 1] == "";
    }
  }

  lemma {:induction false} DigitPrefixOfNumber(d: string, rest: string)
    requires AllDigits(d)
    requires rest == [] || !IsDigit(rest[0])
    ensures DigitPrefix(d + rest) == d
    decreases |d|
  {
    if d != [] {
      assert (d + rest)[1..] == d[1..] + rest;
      DigitPrefixOfNumber(d[1..], rest);
      assert [d[0]] + d[1..] == d;
    } else {
      assert d + rest == rest;
    }
  }

  /**
   * `(int)` of a rendered number, after any leading white space and whatever
   * text follows the digits, is that number capped as `CapToInt` says.
   */
  lemma {:induction false} IntCastOfRendered(pad: string, n: nat, rest: string)
    requires forall i :: 0 <= i < |pad| ==> IsSpace(pad[i])
    requires rest == [] || !IsDigit(rest[0])
    ensures IntCast(pad + Decimal(n) + rest) == CapToInt(n)
  {
    var d := Decimal(n);
    var t := d + rest;
    assert t[0] == d[0];
    SkipSpaceOver(pad, t);
    assert pad + d + rest == pad + t;
    IntCastUnsigned(pad + t, t);
    DigitPrefixOfNumber(d, rest);
    DigitsValueDecimal(n);
  }

  /** `(int)` reads back what `Decimal` renders when it fits a 64-bit `int`. */
  lemma IntCastOfDecimal(pad: string, n: nat, rest: string)
    requires forall i :: 0 <= i < |pad| ==> IsSpace(pad[i])
    requires rest == [] || !IsDigit(rest[0])
    requires n <= IntMax
    ensures IntCast(pad + Decimal(n) + rest) == n
  {
    IntCastOfRendered(pad, n, rest);
  }

  /** A digit run too large for a double reads as infinity, and `(int)` gives 0. */
  lemma IntCastOfHuge(pad: string, n: nat, rest: string)
    requires forall i :: 0 <= i < |pad| ==> IsSpace(pad[i])
    requires rest == [] || !IsDigit(rest[0])
    requires n >= DoubleOverflow
    ensures IntCast(pad + Decimal(n) + rest) == 0
  {
    IntCastOfRendered(pad, n, rest);
  }

  /** Once the white space is skipped, a leading digit means no sign is read. */
  lemma IntCastUnsigned(s: string, t: string)
    requires SkipSpace(s) == t && t != [] && IsDigit(t[0])
    ensures IntCast(s) == CapToInt(DigitsValue(DigitPrefix(t)))
  {
  }

  lemma {:induction false} SkipSpaceOver(pad: string, t: string)
    requires forall i :: 0 <= i < |pad| ==> IsSpace(pad[i])
    requires t == [] || !IsSpace(t[0])
    ensures SkipSpace(pad + t) == t
    decreases |pad|
  {
    if pad != [] {
      assert (pad + t)[1..] == pad[1..] + t;
      SkipSpaceOver(pad[1..], t);
    } else {
      assert pad + t == t;
    }
  }
}
