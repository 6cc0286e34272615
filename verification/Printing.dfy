/** Printing numbers: `itoa`, with its reversal in place. */
module Printing {

  // --- itoa

  /** C's division and remainder, towards zero. */
  function Div(a: int, b: int): int
    requires b > 0
  {
    if a >= 0 then a / b else -(-a / b)
  }

  function Rem(a: int, b: int): (r: int)
    requires b > 0
    ensures -b < r < b
    ensures a >= 0 ==> r == a % b
  {
    a - b * Div(a, b)
  }

  lemma DivSmaller(a: int, b: int)
    requires b >= 2 && a != 0
    ensures a > 0 ==> 0 <= Div(a, b) < a
    ensures a < 0 ==> a < Div(a, b) <= 0
  {
    Halves(if a > 0 then a else -a, b);
  }

  lemma Halves(a: int, b: int)
    requires b >= 2 && a > 0
    ensures 0 <= a / b < a
  {
    var q := a / b;
    assert b * q <= a;
    assert q >= 0 && b * q >= 2 * q;
  }

  function DigitChar(rem: int): (c: char)
    requires -36 < rem < 36
    ensures c != '\0'
  {
    if rem > 9 then (rem - 10 + 'a' as int) as char else (rem + '0' as int) as char
  }

  /** How far a number is from zero. */
  function Size(n: int): nat {
    if n < 0 then -n else n
  }

  /** The digits, most significant first; none for zero. Negative numbers give characters below '0'. */
  function Digits(n: int, base: int): string
    requires 2 <= base <= 36
    decreases Size(n)
  {
    if n == 0 then ""
    else
      DivSmaller(n, base);
      Digits(Div(n, base), base) + [DigitChar(Rem(n, base))]
  }

  ghost predicate NoNul(s: string) {
    forall i :: 0 <= i < |s| ==> s[i] != '\0'
  }

  lemma {:induction false} DigitsNoNul(n: int, base: int)
    requires 2 <= base <= 36
    ensures NoNul(Digits(n, base)) && (n == 0 <==> Digits(n, base) == "")
    decreases Size(n)
  {
    if n != 0 {
      DivSmaller(n, base);
      DigitsNoNul(Div(n, base), base);
      hide Div, Rem, DigitChar;
    }
  }

  /** What `itoa` prints. */
  function Printed(n: int, base: int): string
    requires 2 <= base <= 36
  {
    if n == 0 then "0"
    else if n < 0 && base == 10 then "-" + Digits(-n, base)
    else Digits(n, base)
  }

  lemma PrintedNoNul(n: int, base: int)
    requires 2 <= base <= 36
    ensures NoNul(Printed(n, base)) && Printed(n, base) != ""
  {
    DigitsNoNul(n, base);
    DigitsNoNul(-n, base);
  }

  ghost function Backwards(s: string): (r: string)
    ensures |r| == |s| && forall i :: 0 <= i < |s| ==> r[i] == s[|s| - 1 - i]
  {
    seq(|s|, i requires 0 <= i < |s| => s[|s| - 1 - i])
  }

  /** The text in a C buffer. */
  ghost predicate Holds(str: array<char>, s: string)
    reads str
  {
    |s| < str.Length && str[..|s|] == s && str[|s|] == '\0'
  }

  /** Swaps the characters `i` and on with their mirror images, in place. */
  method ReverseString(str: array<char>, i: nat, len: nat)
    requires i <= len / 2 && len < str.Length
    modifies str
    ensures forall k :: i <= k <= len - i ==> str[k] == old(str[len - k])
    ensures forall k :: 0 <= k < str.Length && !(i <= k <= len - i) ==> str[k] == old(str[k])
    decreases len / 2 - i
  {
    var temp := str[i];
    str[i] := str[len - i];
    str[len - i] := temp;
    if i == len / 2 {
      return;
    }
    ReverseString(str, i + 1, len);
  }

  method Strlen(str: array<char>, ghost s: string) returns (n: nat)
    requires Holds(str, s) && NoNul(s)
    ensures n == |s|
  {
    n := 0;
    assert forall k :: 0 <= k < |s| ==> str[k] == s[k];
    while str[n] != '\0'
      invariant 0 <= n <= |s|
      decreases |s| - n
    {
      n := n + 1;
    }
  }

  /** The digits of `n` go into the buffer, the last first. */
  method PutDigits(n0: int, str: array<char>, base: int) returns (i: nat)
    requires 2 <= base <= 36 && |Digits(n0, base)| <= str.Length
    modifies str
    ensures i == |Digits(n0, base)| && Backwards(str[..i]) == Digits(n0, base)
  {
    hide Div, Rem, DigitChar, Size;
    i := 0;
    var n := n0;
    ghost var whole := Digits(n0, base);
    assert whole + Backwards(str[..0]) == whole;
    while n != 0
      invariant 0 <= i <= str.Length && |whole| == |Digits(n, base)| + i
                && whole == Digits(n, base) + Backwards(str[..i])
      decreases Size(n)
    {
      SizeFalls(n, base);
      DigitsUnfold(n, base);
      var rem := Rem(n, base);
      ghost var was := str[..i];
      str[i] := DigitChar(rem);
      assert str[..i + 1] == was + [DigitChar(rem)];
      BackwardsPlus(was, DigitChar(rem));
      Regroup(Digits(Div(n, base), base), [DigitChar(rem)], Backwards(was));
      i := i + 1;
      n := Div(n, base);
    }
    assert Digits(0, base) == "" && "" + Backwards(str[..i]) == Backwards(str[..i]);
  }

  lemma SizeFalls(n: int, base: int)
    requires base >= 2 && n != 0
    ensures Size(Div(n, base)) < Size(n)
  {
    DivSmaller(n, base);
  }

  lemma DigitsUnfold(n: int, base: int)
    requires 2 <= base <= 36 && n != 0
    ensures Digits(n, base) == Digits(Div(n, base), base) + [DigitChar(Rem(n, base))]
  {
  }

  lemma BackwardsPlus(s: string, c: char)
    ensures Backwards(s + [c]) == [c] + Backwards(s)
  {
  }

  lemma Regroup(a: string, b: string, c: string)
    ensures a + b + c == a + (b + c)
  {
  }

  lemma BackwardsNoNul(s: string)
    ensures NoNul(Backwards(s)) ==> NoNul(s)
  {
    assert forall i :: 0 <= i < |s| ==> s[i] == Backwards(s)[|s| - 1 - i];
  }

  /** The text of a number, and whether the buffer is what is returned. */
  method Itoa(num: int, str: array<char>, base: int) returns (returned: bool)
    requires 2 <= base <= 36 && |Printed(num, base)| < str.Length
    modifies str
    ensures Holds(str, Printed(num, base)) && (returned <==> num == 0)
  {
    hide Digits;
    PrintedNoNul(num, base);
    if num == 0 {
      str[0] := '0';
      str[1] := '\0';
      assert str[..1] == "0";
      return true;
    }
    var n, isNegative := num, false;
    if num < 0 && base == 10 {
      isNegative := true;
      n := -num;
    }
    var i := PutDigits(n, str, base);
    if isNegative {
      BackwardsPlus(str[..i], '-');
      ghost var was := str[..i];
      str[i] := '-';
      assert str[..i + 1] == was + ['-'];
      i := i + 1;
    }
    str[i] := '\0';
    ghost var text := str[..i];
    assert Backwards(text) == Printed(num, base);
    BackwardsNoNul(text);
    var len := Strlen(str, text);
    ReverseString(str, 0, len - 1);
    assert str[..len] == Backwards(text);
    return false;
  }

  // --- what the text says

  function DigitValue(c: char): int {
    if c >= 'a' then c as int - 'a' as int + 10 else c as int - '0' as int
  }

  function Value(s: string, base: int): int {
    if s == "" then 0 else base * Value(s[..|s| - 1], base) + DigitValue(s[|s| - 1])
  }

  ghost predicate Numeral(s: string, base: int) {
    s != "" && (s[0] == '0' ==> |s| == 1) && AllDigits(s, base)
  }

  predicate IsDigit(c: char, base: int) {
    ('0' <= c <= '9' || 'a' <= c <= 'z') && 0 <= DigitValue(c) < base
  }

  lemma OneDigit(rem: int, base: int)
    requires 0 <= rem < base <= 36
    ensures DigitValue(DigitChar(rem)) == rem && IsDigit(DigitChar(rem), base) && (DigitChar(rem) == '0' <==> rem == 0)
  {
  }

  lemma DivRem(n: nat, base: int)
    requires base >= 2
    ensures base * Div(n, base) + Rem(n, base) == n && 0 <= Rem(n, base) < base && Div(n, base) >= 0
    ensures n < base ==> Div(n, base) == 0 && Rem(n, base) == n
  {
  }

  ghost predicate AllDigits(s: string, base: int) {
    forall i :: 0 <= i < |s| ==> IsDigit(s[i], base)
  }

  lemma {:induction false} DigitsRead(n: nat, base: int)
    requires 2 <= base <= 36
    ensures Value(Digits(n, base), base) == n && AllDigits(Digits(n, base), base)
    ensures n > 0 ==> Digits(n, base) != "" && Digits(n, base)[0] != '0'
    decreases n
  {
    hide Div, Rem, DigitChar, DigitValue, IsDigit;
    if n > 0 {
      DivSmaller(n, base);
      DivRem(n, base);
      var init, c := Digits(Div(n, base), base), DigitChar(Rem(n, base));
      DigitsRead(Div(n, base), base);
      OneDigit(Rem(n, base), base);
      DigitsUnfold(n, base);
      assert (init + [c])[..|init|] == init;
      if Div(n, base) == 0 {
        assert init == "";
        DivZero(n, base);
      }
    }
  }

  lemma DivZero(n: nat, base: int)
    requires base >= 2 && n > 0 && Div(n, base) == 0
    ensures Rem(n, base) == n
  {
  }

  /** For a number that is not negative the text is the numeral without leading zeros that reads back as
      the number, and there is no other. */
  lemma PrintedIsNumeral(n: nat, base: int, s: string)
    requires 2 <= base <= 36
    ensures s == Printed(n, base) <==> Numeral(s, base) && Value(s, base) == n
  {
    DigitsRead(n, base);
    if n == 0 {
      assert Value("0", base) == 0;
    }
    if Numeral(s, base) && Value(s, base) == n {
      NumeralUnique(s, base);
    }
  }

  lemma DivNegative(n: int, base: int)
    requires base >= 2 && n >= 0
    ensures Div(-n, base) == -Div(n, base) && Rem(-n, base) == -Rem(n, base) && 0 <= Rem(n, base) < base
  {
  }

  lemma BelowZero(rem: int)
    requires 0 <= rem < 36
    ensures DigitChar(-rem) as int == '0' as int - DigitValue(DigitChar(rem))
  {
  }

  lemma {:induction false} DigitsNegative(n: int, base: int)
    requires 2 <= base <= 36 && n >= 0
    ensures |Digits(-n, base)| == |Digits(n, base)|
    ensures forall i :: 0 <= i < |Digits(n, base)| ==>
      Digits(-n, base)[i] as int == '0' as int - DigitValue(Digits(n, base)[i])
    decreases n
  {
    hide Div, Rem, DigitChar, DigitValue;
    if n > 0 {
      DivSmaller(n, base);
      DivNegative(n, base);
      BelowZero(Rem(n, base));
      DigitsNegative(Div(n, base), base);
      DigitsUnfold(n, base);
      DigitsUnfold(-n, base);
    }
  }

  /** A negative number has a minus sign in base ten; in any other base its digits come out as the characters as
      far below '0' as their values. */
  lemma NegativePrinted(n: int, base: int)
    requires 2 <= base <= 36 && n > 0
    ensures base == 10 ==> Printed(-n, base) == "-" + Printed(n, base)
    ensures base != 10 ==> |Printed(-n, base)| == |Printed(n, base)|
    ensures base != 10 ==> forall i :: 0 <= i < |Printed(n, base)| ==>
      Printed(-n, base)[i] as int == '0' as int - DigitValue(Printed(n, base)[i])
  {
    DigitsNegative(n, base);
    hide Digits, DigitValue;
  }

  lemma Rebuild(v: nat, d: int, base: int)
    requires 0 <= d < base && base >= 2
    ensures Div(base * v + d, base) == v && Rem(base * v + d, base) == d
  {
    var x := base * v + d;
    var q, r := x / base, x % base;
    assert base * (q - v) == d - r;
    SmallMultiple(base, q - v);
    assert base * v >= 0;
  }

  lemma SmallMultiple(b: int, k: int)
    requires b > 0 && -b < b * k < b
    ensures k == 0
  {
    assert k >= 1 ==> b * k >= b;
    assert k <= -1 ==> b * k <= -b;
  }

  lemma CharBack(c: char, base: int)
    requires IsDigit(c, base) && base <= 36
    ensures 0 <= DigitValue(c) < base && DigitChar(DigitValue(c)) == c && (DigitValue(c) == 0 <==> c == '0')
  {
  }

  lemma Bigger(v: int, d: int, base: int)
    requires v > 0 && d >= 0 && base >= 2
    ensures base * v + d > 0
  {
  }

  lemma {:induction false} NumeralUnique(s: string, base: int)
    requires 2 <= base <= 36 && Numeral(s, base)
    ensures Value(s, base) >= 0 && s == Printed(Value(s, base), base)
    ensures Value(s, base) == 0 <==> s == "0"
    decreases |s|
  {
    hide Div, Rem, DigitChar, DigitValue, IsDigit;
    var init, c := s[..|s| - 1], s[|s| - 1];
    assert s == init + [c];
    CharBack(c, base);
    var d := DigitValue(c);
    if init == "" {
      assert Value(init, base) == 0 && Value(s, base) == d;
      if d > 0 {
        DivRem(d, base);
        DigitsUnfold(d, base);
        assert Digits(0, base) == "";
      }
    } else {
      NumeralUnique(init, base);
      assert init != "0";
      var v := Value(init, base);
      Bigger(v, d, base);
      Rebuild(v, d, base);
      DigitsUnfold(base * v + d, base);
    }
  }
}
