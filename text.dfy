/**
 * The string operations of Ruby's core library that the command builders and
 * the info parser rely on: `Array#join`, `upcase`/`downcase`/`capitalize`,
 * `gsub` of one character, `Integer#to_s`, `String#to_i` and `sprintf('%x')`.
 * `Split` is not used by the library; it is the reference reading of a token
 * (how the engine cuts it into fields) against which the renderers are proved.
 */
module Text {

  // ---------------------------------------------------------------------------
  // join and its inverse

  /** `parts.join(sep)` for a one-character separator. */
  function Join(parts: seq<string>, sep: char): string
    decreases |parts|
  {
    if |parts| == 0 then ""
    else if |parts| == 1 then parts[0]
    else parts[0] + [sep] + Join(parts[1..], sep)
  }

  /** The pieces of `s` between occurrences of `sep` (empty pieces kept). */
  function Split(s: string, sep: char): (r: seq<string>)
    ensures |r| > 0
    decreases |s|
  {
    if |s| == 0 then [""]
    else if s[0] == sep then [""] + Split(s[1..], sep)
    else
      var rest := Split(s[1..], sep);
      [[s[0]] + rest[0]] + rest[1..]
  }

  /** No part contains `c`. */
  predicate Avoids(parts: seq<string>, c: char) {
    forall i :: 0 <= i < |parts| ==> c !in parts[i]
  }

  /** No piece holds the separator. */
  lemma {:induction false} SplitAvoids(s: string, sep: char)
    ensures Avoids(Split(s, sep), sep)
    decreases |s|
  {
    if |s| > 0 {
      SplitAvoids(s[1..], sep);
      var rest := Split(s[1..], sep);
      if s[0] != sep {
        assert ([s[0]] + rest[0])[0] == s[0];
        assert forall i :: 1 <= i < |rest| ==> ([[s[0]] + rest[0]] + rest[1..])[i] == rest[i];
      }
    }
  }

  lemma {:induction false} SplitWithout(s: string, sep: char)
    requires sep !in s
    ensures Split(s, sep) == [s]
    decreases |s|
  {
    if |s| > 0 {
      SplitWithout(s[1..], sep);
      assert [s[0]] + s[1..] == s;
    }
  }

  /** Cutting at the first separator. */
  lemma {:induction false} SplitAt(a: string, b: string, sep: char)
    requires sep !in a
    ensures Split(a + [sep] + b, sep) == [a] + Split(b, sep)
    decreases |a|
  {
    var s := a + [sep] + b;
    if |a| == 0 {
      assert s == [sep] + b;
      assert s[1..] == b;
    } else {
      assert s[0] == a[0];
      assert s[1..] == a[1..] + [sep] + b;
      SplitAt(a[1..], b, sep);
      assert [a[0]] + a[1..] == a;
    }
  }

  /** Splitting undoes joining when no part contains the separator. */
  lemma {:induction false} SplitJoin(parts: seq<string>, sep: char)
    requires |parts| > 0 && Avoids(parts, sep)
    ensures Split(Join(parts, sep), sep) == parts
    decreases |parts|
  {
    if |parts| == 1 {
      SplitWithout(parts[0], sep);
    } else {
      assert parts[0] == parts[0];
      SplitAt(parts[0], Join(parts[1..], sep), sep);
      SplitJoin(parts[1..], sep);
      assert [parts[0]] + parts[1..] == parts;
    }
  }

  /** Appending one more part to a join. */
  lemma {:induction false} JoinSnoc(parts: seq<string>, last: string, sep: char)
    requires |parts| > 0
    ensures Join(parts + [last], sep) == Join(parts, sep) + [sep] + last
    decreases |parts|
  {
    if |parts| == 1 {
      assert (parts + [last])[1..] == [last];
    } else {
      assert (parts + [last])[1..] == parts[1..] + [last];
      JoinSnoc(parts[1..], last, sep);
    }
  }

  lemma JoinCons(a: string, parts: seq<string>, sep: char)
    requires |parts| > 0
    ensures Join([a] + parts, sep) == a + [sep] + Join(parts, sep)
  {
    assert ([a] + parts)[1..] == parts;
  }

  // Joins of a fixed number of parts, spelt out (each token lemma uses one).

  lemma Join2(a: string, b: string, sep: char)
    ensures Join([a, b], sep) == a + [sep] + b
  {
    assert [a, b][1..] == [b];
  }

  lemma Join3(a: string, b: string, c: string, sep: char)
    ensures Join([a, b, c], sep) == a + [sep] + (b + [sep] + c)
  {
    Join2(b, c, sep);
    JoinCons(a, [b, c], sep);
    assert [a] + [b, c] == [a, b, c];
  }

  lemma Join4(a: string, b: string, c: string, d: string, sep: char)
    ensures Join([a, b, c, d], sep) == a + [sep] + (b + [sep] + (c + [sep] + d))
  {
    Join3(b, c, d, sep);
    JoinCons(a, [b, c, d], sep);
    assert [a] + [b, c, d] == [a, b, c, d];
  }

  lemma Join5(a: string, b: string, c: string, d: string, e: string, sep: char)
    ensures Join([a, b, c, d, e], sep) == a + [sep] + (b + [sep] + (c + [sep] + (d + [sep] + e)))
  {
    Join4(b, c, d, e, sep);
    JoinCons(a, [b, c, d, e], sep);
    assert [a] + [b, c, d, e] == [a, b, c, d, e];
  }

  lemma Join6(a: string, b: string, c: string, d: string, e: string, f: string, sep: char)
    ensures Join([a, b, c, d, e, f], sep)
         == a + [sep] + (b + [sep] + (c + [sep] + (d + [sep] + (e + [sep] + f))))
  {
    Join5(b, c, d, e, f, sep);
    JoinCons(a, [b, c, d, e, f], sep);
    assert [a] + [b, c, d, e, f] == [a, b, c, d, e, f];
  }

  /** A joined string contains the separator only where it was put. */
  lemma {:induction false} JoinAvoids(parts: seq<string>, sep: char, c: char)
    requires Avoids(parts, c) && c != sep
    ensures c !in Join(parts, sep)
    decreases |parts|
  {
    if |parts| > 1 {
      JoinAvoids(parts[1..], sep, c);
    }
  }

  /** `s.start_with?(p)`, which is also the regular expression `/^p/` on one line. */
  predicate StartsWith(s: string, p: string) {
    |p| <= |s| && s[..|p|] == p
  }

  // ---------------------------------------------------------------------------
  // letter case (ASCII letters only)

  predicate IsLowerLetter(c: char) { 'a' <= c <= 'z' }
  predicate IsUpperLetter(c: char) { 'A' <= c <= 'Z' }

  function UpperChar(c: char): char {
    if IsLowerLetter(c) then (c as int - 32) as char else c
  }

  function LowerChar(c: char): char {
    if IsUpperLetter(c) then (c as int + 32) as char else c
  }

  /** `s.upcase`: no lower-case letter is left, and the text is unchanged up to case. */
  function Upper(s: string): (r: string)
    ensures |r| == |s|
    ensures forall i :: 0 <= i < |r| ==> !IsLowerLetter(r[i])
    ensures forall i :: 0 <= i < |r| ==> LowerChar(r[i]) == LowerChar(s[i])
  {
    seq(|s|, i requires 0 <= i < |s| => UpperChar(s[i]))
  }

  /** `s.downcase`: no upper-case letter is left, and the text is unchanged up to case. */
  function Lower(s: string): (r: string)
    ensures |r| == |s|
    ensures forall i :: 0 <= i < |r| ==> !IsUpperLetter(r[i])
    ensures forall i :: 0 <= i < |r| ==> UpperChar(r[i]) == UpperChar(s[i])
  {
    seq(|s|, i requires 0 <= i < |s| => LowerChar(s[i]))
  }

  /** `s.capitalize`: the first character upper-cased, the rest lower-cased. */
  function Capitalize(s: string): string {
    if |s| == 0 then "" else [UpperChar(s[0])] + Lower(s[1..])
  }

  /** `upcase` works character by character. */
  lemma UpperPointwise(s: string)
    ensures forall i :: 0 <= i < |s| ==> Upper(s)[i] == UpperChar(s[i])
  {
    var r := Upper(s);
    forall i | 0 <= i < |s| ensures r[i] == UpperChar(s[i]) {
      assert LowerChar(r[i]) == LowerChar(s[i]);
    }
  }

  /** `downcase` works character by character. */
  lemma LowerPointwise(s: string)
    ensures forall i :: 0 <= i < |s| ==> Lower(s)[i] == LowerChar(s[i])
  {
    var r := Lower(s);
    forall i | 0 <= i < |s| ensures r[i] == LowerChar(s[i]) {
      assert UpperChar(r[i]) == UpperChar(s[i]);
    }
  }

  /** Text without upper-case letters is its own `downcase`. */
  lemma LowerOfLower(s: string)
    requires forall i :: 0 <= i < |s| ==> !IsUpperLetter(s[i])
    ensures Lower(s) == s
  {
    LowerPointwise(s);
  }

  /** `downcase` undoes `upcase` on text without upper-case letters. */
  lemma LowerUpper(s: string)
    requires forall i :: 0 <= i < |s| ==> !IsUpperLetter(s[i])
    ensures Lower(Upper(s)) == s
  {
    UpperPointwise(s);
    LowerPointwise(Upper(s));
  }

  /** Case conversion leaves every character that is not a letter where it was. */
  lemma UpperKeeps(s: string, c: char)
    requires !IsLowerLetter(c) && !IsUpperLetter(c)
    ensures c in Upper(s) <==> c in s
  {
    var r := Upper(s);
    if c in r {
      var i :| 0 <= i < |r| && r[i] == c;
      assert LowerChar(r[i]) == LowerChar(s[i]);
    }
    if c in s {
      var i :| 0 <= i < |s| && s[i] == c;
      assert LowerChar(r[i]) == LowerChar(s[i]);
    }
  }

  /** `s.gsub(c, '')`: every occurrence of `c` removed, the rest kept in order. */
  function Remove(s: string, c: char): (r: string)
    ensures c !in r
    ensures |r| <= |s|
    decreases |s|
  {
    if |s| == 0 then ""
    else if s[0] == c then Remove(s[1..], c)
    else [s[0]] + Remove(s[1..], c)
  }

  lemma {:induction false} RemoveAround(a: string, c: char)
    requires c !in a
    ensures Remove([c] + a + [c], c) == a
  {
    RemoveAbsent(a, c);
    var s := [c] + a + [c];
    assert s[1..] == a + [c];
    RemoveAppend(a, [c], c);
    assert Remove([c], c) == "";
  }

  lemma {:induction false} RemoveAbsent(a: string, c: char)
    requires c !in a
    ensures Remove(a, c) == a
    decreases |a|
  {
    if |a| > 0 {
      RemoveAbsent(a[1..], c);
      assert [a[0]] + a[1..] == a;
    }
  }

  lemma {:induction false} RemoveAppend(a: string, b: string, c: char)
    ensures Remove(a + b, c) == Remove(a, c) + Remove(b, c)
    decreases |a|
  {
    if |a| == 0 {
      assert a + b == b;
    } else {
      assert (a + b)[0] == a[0];
      assert (a + b)[1..] == a[1..] + b;
      RemoveAppend(a[1..], b, c);
    }
  }

  // ---------------------------------------------------------------------------
  // numerals

  predicate IsNumeral(c: char) { '0' <= c <= '9' || 'a' <= c <= 'f' }

  function CharValue(c: char): nat
    requires IsNumeral(c)
  {
    if c <= '9' then c as int - '0' as int else c as int - 'a' as int + 10
  }

  /** `c` is a digit of base `base` (digits above 9 written in lower case). */
  predicate IsDigitIn(c: char, base: nat) {
    IsNumeral(c) && CharValue(c) < base
  }

  predicate DigitsIn(s: string, base: nat) {
    forall i :: 0 <= i < |s| ==> IsDigitIn(s[i], base)
  }

  /** The number a string of digits denotes. */
  function ValueIn(s: string, base: nat): nat
    requires DigitsIn(s, base)
    decreases |s|
  {
    if |s| == 0 then 0 else ValueIn(s[..|s| - 1], base) * base + CharValue(s[|s| - 1])
  }

  function DigitChar(d: nat): (c: char)
    requires d < 16
    ensures IsNumeral(c) && CharValue(c) == d
  {
    if d < 10 then ('0' as int + d) as char else ('a' as int + d - 10) as char
  }

  lemma DivMod(n: nat, base: nat)
    requires 2 <= base <= n
    ensures (n / base) * base + n % base == n
    ensures 1 <= n / base < n && n % base < base
  {
  }

  /** `n.to_s(base)`: the shortest digit string denoting `n`. */
  function NatToDigits(n: nat, base: nat): (r: string)
    requires 2 <= base <= 16
    ensures |r| > 0 && DigitsIn(r, base) && ValueIn(r, base) == n
    ensures r[0] == '0' ==> n == 0
    decreases n
  {
    if n < base then [DigitChar(n)]
    else
      DivMod(n, base);
      var high := NatToDigits(n / base, base);
      var r := high + [DigitChar(n % base)];
      assert r[..|r| - 1] == high;
      assert r[0] == high[0];
      r
  }

  /** `n.to_s` for a non-negative integer. */
  function Decimal(n: nat): string {
    NatToDigits(n, 10)
  }

  /** `i.to_s`. */
  function IntToDecimal(i: int): string {
    if i < 0 then "-" + Decimal(-i) else Decimal(i)
  }

  predicate IsSpace(c: char) {
    c == ' ' || c == '\t' || c == '\n' || c == '\r' || c == '\U{000B}' || c == '\U{000C}'
  }

  /** The length of the longest prefix of `s` of white space. */
  function SpaceSpan(s: string): (n: nat)
    ensures n <= |s|
    ensures forall i :: 0 <= i < n ==> IsSpace(s[i])
    ensures n < |s| ==> !IsSpace(s[n])
    decreases |s|
  {
    if |s| == 0 || !IsSpace(s[0]) then 0 else 1 + SpaceSpan(s[1..])
  }

  /** The length of the longest prefix of `s` of decimal digits. */
  function DigitSpan(s: string): (n: nat)
    ensures n <= |s|
    ensures DigitsIn(s[..n], 10)
    ensures n < |s| ==> !IsDigitIn(s[n], 10)
    decreases |s|
  {
    if |s| == 0 || !IsDigitIn(s[0], 10) then 0
    else
      var n := 1 + DigitSpan(s[1..]);
      assert s[..n] == [s[0]] + s[1..][..n - 1];
      n
  }

  /** `s.to_i`: optional leading white space and sign, then the longest run of
      decimal digits; 0 when there are none. */
  function ToI(s: string): int {
    var t := s[SpaceSpan(s)..];
    if |t| > 0 && (t[0] == '-' || t[0] == '+') then
      var v: int := ValueIn(t[1..][..DigitSpan(t[1..])], 10);
      if t[0] == '-' then -v else v
    else ValueIn(t[..DigitSpan(t)], 10)
  }

  lemma DigitSpanAll(s: string)
    requires DigitsIn(s, 10)
    ensures DigitSpan(s) == |s|
  {
  }

  lemma {:induction false} DigitSpanPrefix(d: string, rest: string)
    requires DigitsIn(d, 10)
    requires |rest| == 0 || !IsDigitIn(rest[0], 10)
    ensures DigitSpan(d + rest) == |d|
    decreases |d|
  {
    if |d| > 0 {
      assert (d + rest)[1..] == d[1..] + rest;
      DigitSpanPrefix(d[1..], rest);
    } else {
      assert d + rest == rest;
    }
  }

  lemma DecimalThen(n: nat, rest: string)
    requires |rest| == 0 || !IsDigitIn(rest[0], 10)
    ensures ToI(Decimal(n) + rest) == n
  {
    var d := Decimal(n);
    var s := d + rest;
    assert s[0] == d[0] && IsDigitIn(d[0], 10);
    assert SpaceSpan(s) == 0;
    assert s[0..] == s;
    DigitSpanPrefix(d, rest);
    assert s[..|d|] == d;
  }

  lemma NegativeDecimalThen(n: nat, rest: string)
    requires |rest| == 0 || !IsDigitIn(rest[0], 10)
    ensures ToI("-" + (Decimal(n) + rest)) == -(n as int)
  {
    var d := Decimal(n);
    var s := "-" + (d + rest);
    assert s[0] == '-';
    assert SpaceSpan(s) == 0;
    assert s[0..] == s;
    assert s[1..] == d + rest;
    DigitSpanPrefix(d, rest);
    assert (d + rest)[..|d|] == d;
  }

  lemma Reassociate<T>(a: seq<T>, b: seq<T>, c: seq<T>)
    ensures (a + b) + c == a + (b + c)
  {
  }

  lemma NegativeThen(i: int, rest: string)
    requires i < 0 && (|rest| == 0 || !IsDigitIn(rest[0], 10))
    ensures ToI(IntToDecimal(i) + rest) == i
  {
    var d := Decimal(-i);
    assert IntToDecimal(i) == "-" + d;
    Reassociate("-", d, rest);
    NegativeDecimalThen(-i, rest);
  }

  lemma NonNegativeThen(i: int, rest: string)
    requires i >= 0 && (|rest| == 0 || !IsDigitIn(rest[0], 10))
    ensures ToI(IntToDecimal(i) + rest) == i
  {
    DecimalThen(i, rest);
  }

  /** `to_i` reads a decimal back from the front of a text, up to the first
      character that is not a digit. */
  lemma ToIDecimalThen(i: int, rest: string)
    requires |rest| == 0 || !IsDigitIn(rest[0], 10)
    ensures ToI(IntToDecimal(i) + rest) == i
  {
    if i < 0 {
      NegativeThen(i, rest);
    } else {
      NonNegativeThen(i, rest);
    }
  }

  /** `to_i` reads back what `to_s` wrote. */
  lemma ToIDecimal(i: int)
    ensures ToI(IntToDecimal(i)) == i
  {
    var s := IntToDecimal(i);
    assert !IsSpace(s[0]);
    assert s[SpaceSpan(s)..] == s;
    if i < 0 {
      var d := Decimal(-i);
      assert s[1..] == d;
      DigitSpanAll(d);
      assert d[..|d|] == d;
    } else {
      var d := Decimal(i);
      DigitSpanAll(d);
      assert d[..|d|] == d;
      assert IsDigitIn(d[0], 10);
    }
  }

  function Zeros(n: nat): (r: string)
    ensures |r| == n && forall i :: 0 <= i < n ==> r[i] == '0'
  {
    seq(n, _ => '0')
  }

  lemma {:induction false} LeadingZeros(z: nat, s: string, base: nat)
    requires 2 <= base && DigitsIn(s, base)
    ensures DigitsIn(Zeros(z) + s, base) && ValueIn(Zeros(z) + s, base) == ValueIn(s, base)
    decreases |s|
  {
    var t := Zeros(z) + s;
    assert DigitsIn(t, base) by {
      forall i | 0 <= i < |t| ensures IsDigitIn(t[i], base) {
        if i >= z { assert t[i] == s[i - z]; }
      }
    }
    if |s| == 0 {
      assert t == Zeros(z);
      ZerosValue(z, base);
    } else {
      assert t[..|t| - 1] == Zeros(z) + s[..|s| - 1];
      LeadingZeros(z, s[..|s| - 1], base);
    }
  }

  lemma {:induction false} ZerosValue(z: nat, base: nat)
    requires 2 <= base
    ensures DigitsIn(Zeros(z), base) && ValueIn(Zeros(z), base) == 0
    decreases z
  {
    if z > 0 {
      assert Zeros(z)[..z - 1] == Zeros(z - 1);
      ZerosValue(z - 1, base);
    }
  }

  /** Digits needed for `n`, when `n` is below 16 to the `k`. */
  lemma {:induction false} HexLength(n: nat, k: nat, bound: nat)
    requires bound == Power16(k) && n < bound
    ensures |NatToDigits(n, 16)| <= if k == 0 then 1 else k
    decreases k
  {
    if n >= 16 {
      assert k >= 2;
      assert n / 16 < Power16(k - 1);
      HexLength(n / 16, k - 1, Power16(k - 1));
    }
  }

  function Power16(k: nat): nat {
    if k == 0 then 1 else 16 * Power16(k - 1)
  }

  lemma HexFits(n: nat)
    requires n < 0x1_0000_0000
    ensures |NatToDigits(n, 16)| <= 8
  {
    assert Power16(8) == 0x1_0000_0000;
    HexLength(n, 8, Power16(8));
  }

  /** `sprintf('%08x', n)` for a non-negative `n`: lower-case hexadecimal,
      zero-padded on the left to at least eight digits. */
  function Hex08(n: nat): (r: string)
    ensures |r| >= 8 && DigitsIn(r, 16) && ValueIn(r, 16) == n
    ensures n < 0x1_0000_0000 ==> |r| == 8
  {
    var d := NatToDigits(n, 16);
    if |d| < 8 then
      LeadingZeros(8 - |d|, d, 16);
      Zeros(8 - |d|) + d
    else
      if n < 0x1_0000_0000 then HexFits(n); d else d
  }
}
