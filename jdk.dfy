/**
 * The few JDK behaviours the core relies on, written out: Java's 32-bit `int`,
 * `String.hashCode` over UTF-16 code units, `Objects.hash` of one value,
 * `String.split(" ")`, `String.valueOf(int)`, `Integer.parseInt` and the plain
 * decimal part of `Double.parseDouble`.
 */
module Jdk {
  import opened Results

  /** Java's `int`. */
  type Int32 = x: int | -0x8000_0000 <= x < 0x8000_0000

  /** Arithmetic on `int` wraps around modulo this. */
  const WORD := 0x1_0000_0000

  // ---------------------------------------------------------------------------
  // String.hashCode and Objects.hash

  /** The UTF-16 code units Java stores for one character: a character outside
      the Basic Multilingual Plane becomes a surrogate pair. */
  function Utf16(c: char): (units: seq<nat>)
    ensures 1 <= |units| <= 2
    ensures |units| == 2 <==> c as int >= 0x1_0000
    ensures forall i :: 0 <= i < |units| ==> units[i] < 0x1_0000
  {
    var v := c as int;
    if v < 0x1_0000 then [v]
    else [0xD800 + (v - 0x1_0000) / 0x400, 0xDC00 + (v - 0x1_0000) % 0x400]
  }

  /** The UTF-16 code units of a string, in order. */
  function CodeUnits(s: string): (units: seq<nat>)
    ensures |s| <= |units| <= 2 * |s|
  {
    if s == [] then [] else CodeUnits(s[..|s| - 1]) + Utf16(s[|s| - 1])
  }

  lemma {:induction false} CodeUnitsAppend(a: string, b: string)
    ensures CodeUnits(a + b) == CodeUnits(a) + CodeUnits(b)
    decreases |b|
  {
    if b == [] {
      assert a + b == a;
    } else {
      var b' := b[..|b| - 1];
      assert (a + b)[..|a + b| - 1] == a + b';
      assert (a + b)[|a + b| - 1] == b[|b| - 1];
      CodeUnitsAppend(a, b');
      calc {
        CodeUnits(a + b);
        CodeUnits(a + b') + Utf16(b[|b| - 1]);
        CodeUnits(a) + CodeUnits(b') + Utf16(b[|b| - 1]);
        CodeUnits(a) + (CodeUnits(b') + Utf16(b[|b| - 1]));
        CodeUnits(a) + CodeUnits(b);
      }
    }
  }

  /** `h = 31 * h + unit` over the code units, wrapping at 32 bits; the result
      is the unsigned reading of the 32-bit word. */
  function HashWord(units: seq<nat>): (h: nat)
    ensures h < WORD
  {
    if units == [] then 0
    else (31 * HashWord(units[..|units| - 1]) + units[|units| - 1]) % WORD
  }

  /** `String.hashCode()`, as an unsigned 32-bit word. */
  function StringHash(s: string): (h: nat)
    ensures h < WORD
  {
    HashWord(CodeUnits(s))
  }

  /** `Objects.hash(s)` for one non-null string: `Arrays.hashCode` of the
      one-element array, `31 * 1 + s.hashCode()`, as an unsigned word. */
  function ObjectsHash(s: string): (h: nat)
    ensures h < WORD
  {
    (31 + StringHash(s)) % WORD
  }

  // ---------------------------------------------------------------------------
  // String.split(" ")

  /** The pieces of `s` between single spaces, empty pieces included. */
  function Pieces(s: string): (p: seq<string>)
    ensures |p| >= 1
    ensures forall i :: 0 <= i < |p| ==> ' ' !in p[i]
  {
    if s == [] then [""]
    else
      var rest := Pieces(s[1..]);
      if s[0] == ' ' then [""] + rest else [[s[0]] + rest[0]] + rest[1..]
  }

  /** The pieces glued back together with single spaces. */
  function Join(p: seq<string>): string
  {
    if p == [] then "" else if |p| == 1 then p[0] else p[0] + " " + Join(p[1..])
  }

  /** Cutting at every space and gluing back with spaces gives the string back. */
  lemma {:induction false} JoinPieces(s: string)
    ensures Join(Pieces(s)) == s
  {
    if s != [] {
      var rest := Pieces(s[1..]);
      JoinPieces(s[1..]);
      if s[0] == ' ' {
        assert Pieces(s) == [""] + rest;
        assert Join(Pieces(s)) == "" + " " + Join(rest);
      } else if |rest| == 1 {
        assert Pieces(s) == [[s[0]] + rest[0]];
      } else {
        var p := Pieces(s);
        assert p == [[s[0]] + rest[0]] + rest[1..];
        assert p[1..] == rest[1..];
        assert Join(rest) == rest[0] + " " + Join(rest[1..]);
        assert Join(p) == ([s[0]] + rest[0]) + " " + Join(rest[1..]);
      }
    }
  }

  lemma {:induction false} PiecesOfWord(w: string)
    requires ' ' !in w
    ensures Pieces(w) == [w]
  {
    if w != [] {
      PiecesOfWord(w[1..]);
      assert [w[0]] + w[1..] == w;
    }
  }

  lemma {:induction false} PiecesAfterWord(w: string, rest: string)
    requires ' ' !in w
    ensures Pieces(w + " " + rest) == [w] + Pieces(rest)
  {
    if w == [] {
      assert w + " " + rest == [' '] + rest;
      assert (w + " " + rest)[1..] == rest;
    } else {
      assert (w + " " + rest)[1..] == w[1..] + " " + rest;
      PiecesAfterWord(w[1..], rest);
      assert [w[0]] + w[1..] == w;
    }
  }

  /** Java drops the empty strings at the end of a split result. */
  function DropTrailingEmpty(p: seq<string>): (r: seq<string>)
    ensures r <= p
    ensures r != [] ==> r[|r| - 1] != ""
    ensures forall i :: |r| <= i < |p| ==> p[i] == ""
  {
    if p == [] then []
    else if p[|p| - 1] == "" then DropTrailingEmpty(p[..|p| - 1])
    else p
  }

  /** `s.split(" ")`: a string without a space is returned whole (even when
      empty); otherwise the pieces between spaces, leading and inner empty
      pieces kept and trailing ones dropped. */
  function Split(s: string): seq<string>
  {
    if ' ' !in s then [s] else DropTrailingEmpty(Pieces(s))
  }

  /** Every token of a split is a substring without spaces, and nothing but
      empty pieces is lost. */
  lemma SplitTokens(s: string)
    ensures forall i :: 0 <= i < |Split(s)| ==> ' ' !in Split(s)[i]
    ensures ' ' in s ==> Split(s) <= Pieces(s)
  {
  }

  /** Two words joined by one space split back into exactly those two words. */
  lemma SplitTwoWords(a: string, b: string)
    requires a != "" && b != ""
    requires ' ' !in a && ' ' !in b
    ensures Split(a + " " + b) == [a, b]
  {
    PiecesAfterWord(a, b);
    PiecesOfWord(b);
    assert (a + " " + b)[|a|] == ' ';
  }

  /** Three words joined by single spaces split back into those three words. */
  lemma SplitThreeWords(a: string, b: string, c: string)
    requires a != "" && b != "" && c != ""
    requires ' ' !in a && ' ' !in b && ' ' !in c
    ensures Split(a + " " + b + " " + c) == [a, b, c]
  {
    var s := a + " " + b + " " + c;
    assert s == a + " " + (b + " " + c);
    PiecesAfterWord(a, b + " " + c);
    PiecesAfterWord(b, c);
    PiecesOfWord(c);
    assert s[|a|] == ' ';
  }

  /** When a split yields two tokens or more, the string starts with the
      first token, one space and the second token. */
  lemma SplitFirstTwo(s: string)
    requires |Split(s)| >= 2
    ensures Split(s)[0] + " " + Split(s)[1] <= s
  {
    var p := Pieces(s);
    JoinPieces(s);
    assert Split(s)[0] == p[0] && Split(s)[1] == p[1];
    var tail := Join(p[1..]);
    assert Join(p) == p[0] + " " + tail;
    assert p[1] <= tail by {
      if |p| > 2 {
        assert p[1..][1..] == p[2..];
        assert tail == p[1] + " " + Join(p[2..]);
      }
    }
    assert p[0] + " " + p[1] <= p[0] + " " + tail;
  }

  // ---------------------------------------------------------------------------
  // Decimal digits: String.valueOf(int), Integer.parseInt, Double.parseDouble

  predicate IsDigit(c: char) {
    '0' <= c <= '9'
  }

  predicate AllDigits(d: string) {
    forall i :: 0 <= i < |d| ==> IsDigit(d[i])
  }

  /** The value of a string of decimal digits, most significant first. */
  function DigitsValue(d: string): nat
    requires AllDigits(d)
  {
    if d == [] then 0 else 10 * DigitsValue(d[..|d| - 1]) + (d[|d| - 1] as int - '0' as int)
  }

  /** The decimal digits of a natural number, without leading zeros. */
  function NatToDigits(n: nat): (d: string)
    ensures d != [] && AllDigits(d)
  {
    var last := ['0' + (n % 10) as char];
    if n < 10 then last else NatToDigits(n / 10) + last
  }

  lemma {:induction false} DigitsRoundTrip(n: nat)
    ensures DigitsValue(NatToDigits(n)) == n
  {
    var d := NatToDigits(n);
    if n >= 10 {
      DigitsRoundTrip(n / 10);
      assert d[..|d| - 1] == NatToDigits(n / 10);
    }
  }

  /** `String.valueOf(i)`: a minus sign for negative values, then the digits. */
  function IntToString(i: int): string
  {
    if i < 0 then "-" + NatToDigits(-i) else NatToDigits(i)
  }

  /** `Integer.parseInt(s)`: an optional sign, at least one digit and a value
      within `int`; anything else is a `NumberFormatException` (`None`). */
  function ParseInt(s: string): (r: Option<Int32>)
    ensures r.Some? ==> s != [] && AllDigits(if s[0] == '-' || s[0] == '+' then s[1..] else s)
  {
    if s == [] then None
    else
      var signed := s[0] == '-' || s[0] == '+';
      var digits := if signed then s[1..] else s;
      if digits == [] || !AllDigits(digits) then None
      else
        var v: int := if s[0] == '-' then -(DigitsValue(digits) as int) else DigitsValue(digits);
        if -0x8000_0000 <= v < 0x8000_0000 then Some(v) else None
  }

  /** What `String.valueOf` prints, `Integer.parseInt` reads back. */
  lemma IntRoundTrip(i: Int32)
    ensures ParseInt(IntToString(i)) == Some(i)
  {
    if i < 0 {
      var m: nat := -(i as int);
      DigitsRoundTrip(m);
      assert ("-" + NatToDigits(m))[1..] == NatToDigits(m);
    } else {
      DigitsRoundTrip(i);
    }
  }

  function Pow10(k: nat): (p: nat)
    ensures p >= 1
  {
    if k == 0 then 1 else 10 * Pow10(k - 1)
  }

  /** The position of the first `c` in `s`, or `|s|`. */
  function IndexOf(s: string, c: char): (k: nat)
    ensures k <= |s|
    ensures k < |s| ==> s[k] == c
    ensures forall i :: 0 <= i < k ==> s[i] != c
  {
    if s == [] then 0 else if s[0] == c then 0 else 1 + IndexOf(s[1..], c)
  }

  /** The value of the decimal `whole.fraction`. */
  function DecimalValue(whole: string, fraction: string): real
    requires AllDigits(whole) && AllDigits(fraction)
  {
    DigitsValue(whole) as real + DigitsValue(fraction) as real / Pow10(|fraction|) as real
  }

  /** `Double.parseDouble(s)` for plain decimals: an optional sign, digits, an
      optional point and fraction digits, at least one digit in all; the value
      is exact. */
  function ParseDecimal(s: string): (r: Option<real>)
  {
    if s == [] then None
    else
      var signed := s[0] == '-' || s[0] == '+';
      var body := if signed then s[1..] else s;
      var point := IndexOf(body, '.');
      var whole := body[..point];
      var fraction := if point < |body| then body[point + 1..] else "";
      if whole + fraction == [] || !AllDigits(whole) || !AllDigits(fraction) then None
      else
        var magnitude := DecimalValue(whole, fraction);
        Some(if s[0] == '-' then -magnitude else magnitude)
  }

  /** A price written with a decimal point, `w.f`, reads as `w + f / 10^|f|`;
      either side of the point may be empty, but not both. */
  lemma DecimalWithFraction(w: string, f: string)
    requires AllDigits(w) && AllDigits(f) && w + f != []
    ensures ParseDecimal(w + "." + f) == Some(DecimalValue(w, f))
  {
    var s := w + "." + f;
    assert s[0] != '-' && s[0] != '+' by {
      if w != [] { assert s[0] == w[0]; } else { assert s[0] == '.'; }
    }
    assert forall i :: 0 <= i < |w| ==> s[i] != '.' by {
      forall i | 0 <= i < |w| ensures s[i] != '.' { assert s[i] == w[i]; }
    }
    assert s[|w|] == '.';
    assert IndexOf(s, '.') == |w|;
    assert s[..|w|] == w;
    assert s[|w| + 1..] == f;
  }

  /** A whole number printed in decimal reads back as that number. */
  lemma DecimalOfNat(n: nat)
    ensures ParseDecimal(NatToDigits(n)) == Some(n as real)
  {
    var d := NatToDigits(n);
    DigitsRoundTrip(n);
    assert forall i :: 0 <= i < |d| ==> d[i] != '.';
    assert IndexOf(d, '.') == |d|;
    assert d[..|d|] == d;
  }
}
