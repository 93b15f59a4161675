/** Character classes and number text, as the parser and the printers use them.
    An octet of a C++ `std::string` is the Dafny `char` with the same code. */
module Text {

  datatype Option<+T> = None | Some(value: T)

  const INT_MAX: int := 0x7fff_ffff
  const INT_MIN: int := -0x8000_0000

  predicate IsChar(c: char) { c as int <= 127 }

  predicate IsCtl(c: char) { c as int <= 31 || c as int == 127 }

  predicate IsTspecial(c: char) {
    || c == '(' || c == ')' || c == '<' || c == '>' || c == '@'
    || c == ',' || c == ';' || c == ':' || c == '\\' || c == '\"'
    || c == '/' || c == '[' || c == ']' || c == '?' || c == '='
    || c == '{' || c == '}' || c == ' ' || c == '\t'
  }

  predicate IsDigit(c: char) { '0' <= c <= '9' }

  /** A character of a token (section 2.2 of RFC 2616). */
  predicate IsTokenChar(c: char) { IsChar(c) && !IsCtl(c) && !IsTspecial(c) }

  predicate IsLws(c: char) { c == ' ' || c == '\t' }

  predicate Tokens(s: string) { forall i :: 0 <= i < |s| ==> IsTokenChar(s[i]) }

  predicate Digits(s: string) { forall i :: 0 <= i < |s| ==> IsDigit(s[i]) }

  predicate Printable(s: string) { forall i :: 0 <= i < |s| ==> !IsCtl(s[i]) }

  predicate Blank(s: string) { forall i :: 0 <= i < |s| ==> IsLws(s[i]) }

  predicate NoSpace(s: string) { forall i :: 0 <= i < |s| ==> s[i] != ' ' }

  function LowerChar(c: char): char {
    if 'A' <= c <= 'Z' then ((c as int) + 32) as char else c
  }

  /** `utflower` on the ASCII names it is applied to. */
  function Lower(s: string): (r: string)
    ensures |r| == |s|
  {
    seq(|s|, i requires 0 <= i < |s| => LowerChar(s[i]))
  }

  /** `lexcmpi(a, b) == 0`. */
  predicate EqualIgnoringCase(a: string, b: string) { Lower(a) == Lower(b) }

  const UPPER: string := "ABCDEFGHIJKLMNOPQRSTUVWXYZ"
  const LOWER: string := "abcdefghijklmnopqrstuvwxyz"

  /** Each capital letter becomes the small one at its place in the alphabet, and nothing else changes. */
  lemma LettersAreLowered(i: nat, c: char)
    requires i < 26
    ensures |UPPER| == |LOWER| == 26 && LowerChar(UPPER[i]) == LOWER[i]
    ensures c !in UPPER ==> LowerChar(c) == c
  {
    if 'A' <= c <= 'Z' { LetterAt(c as int - 'A' as int); }
    LetterAt(i);
  }

  lemma LetterAt(i: nat)
    requires i < 26
    ensures UPPER[i] as int == 65 + i && LOWER[i] as int == 97 + i && (65 + i) as char in UPPER
  {
    assert UPPER[i] as int == 65 + i;
    assert UPPER[i] == (65 + i) as char;
  }

  /** The classes by codes: a control is below 32 or 127, white space in a line is 32 or 9, and a token character is
      a visible one of ASCII but for the separators of section 2.2 of RFC 2616. */
  lemma CharacterClasses(c: char)
    ensures var k := c as int;
            && (IsCtl(c) <==> k < 32 || k == 127) && (IsLws(c) <==> k == 32 || k == 9) && (IsDigit(c) <==> 48 <= k < 58)
            && (IsTokenChar(c) <==>
                  32 < k < 127 && k != 34 && k != 40 && k != 41 && k != 44 && k != 47
                  && !(58 <= k <= 64) && !(91 <= k <= 93) && k != 123 && k != 125)
  {
  }

  function Concat(pieces: seq<string>): string {
    if pieces == [] then "" else pieces[0] + Concat(pieces[1..])
  }

  lemma {:induction false} ConcatAppend(a: seq<string>, b: seq<string>)
    ensures Concat(a + b) == Concat(a) + Concat(b)
  {
    if a == [] {
      assert a + b == b;
    } else {
      assert (a + b)[1..] == a[1..] + b;
      ConcatAppend(a[1..], b);
    }
  }

  function DigitValue(c: char): int { c as int - '0' as int }

  /** The value of a digit string, accumulated left to right. */
  function DecValue(s: string): int {
    if s == "" then 0 else DecValue(s[..|s| - 1]) * 10 + DigitValue(s[|s| - 1])
  }

  predicate IsSpace(c: char) { c == ' ' || (9 <= c as int && c as int <= 13) }

  function SkipSpaces(s: string): string {
    if s != "" && IsSpace(s[0]) then SkipSpaces(s[1..]) else s
  }

  /** The length of the longest prefix of digits. */
  function DigitRun(s: string): (n: nat)
    ensures n <= |s| && Digits(s[..n]) && (n < |s| ==> !IsDigit(s[n]))
  {
    if s == "" || !IsDigit(s[0]) then 0
    else
      var n := DigitRun(s[1..]);
      assert s[..n + 1] == [s[0]] + s[1..][..n];
      n + 1
  }

  /** `std::stoi` in base 10; `None` is the exception it throws when there are no
      digits or the value does not fit an `int`. */
  function Stoi(s: string): (r: Option<int>)
    ensures r.Some? ==> INT_MIN <= r.value <= INT_MAX
  {
    var t := SkipSpaces(s);
    var signed := t != "" && (t[0] == '-' || t[0] == '+');
    var u := if signed then t[1..] else t;
    var n := DigitRun(u);
    if n == 0 then None
    else
      var v := if signed && t[0] == '-' then -DecValue(u[..n]) else DecValue(u[..n]);
      if INT_MIN <= v <= INT_MAX then Some(v) else None
  }

  /** `std::to_string` of a size. */
  function Decimal(n: nat): (s: string)
    ensures s != "" && Digits(s)
  {
    var d := [(n % 10 + '0' as int) as char];
    if n < 10 then d else Decimal(n / 10) + d
  }

  lemma {:induction false} DecValueOfDecimal(n: nat)
    ensures DecValue(Decimal(n)) == n
  {
    var s := Decimal(n);
    if n < 10 {
      assert s[..0] == "";
    } else {
      DecValueOfDecimal(n / 10);
      assert s[..|s| - 1] == Decimal(n / 10);
    }
  }

  /** Reading back a printed size gives the size exactly when it fits an `int`. */
  lemma StoiOfDecimal(n: nat)
    ensures Stoi(Decimal(n)) == if n <= INT_MAX then Some(n) else None
  {
    var s := Decimal(n);
    DecValueOfDecimal(n);
    assert IsDigit(s[0]);
    assert SkipSpaces(s) == s;
    DigitRunOfDigits(s);
    assert s[..|s|] == s;
  }

  lemma {:induction false} DigitRunOfDigits(s: string)
    requires Digits(s)
    ensures DigitRun(s) == |s|
  {
    if s == "" {
    } else {
      assert IsDigit(s[0]);
      DigitRunOfDigits(s[1..]);
    }
  }

  lemma {:induction false} DecValueSnoc(s: string, c: char)
    ensures DecValue(s + [c]) == DecValue(s) * 10 + DigitValue(c)
  {
    assert (s + [c])[..|s|] == s;
  }

  /** The value only grows with further digits. */
  lemma {:induction false} DecValueGrows(s: string, t: string)
    requires Digits(s + t)
    ensures 0 <= DecValue(s) <= DecValue(s + t)
    decreases |s| + |t|
  {
    assert forall i :: 0 <= i < |s| ==> IsDigit((s + t)[i]);
    if t == "" {
      assert s + t == s;
      if s != "" {
        assert s == s[..|s| - 1] + [s[|s| - 1]];
        DecValueGrows(s[..|s| - 1], "");
        assert s[..|s| - 1] + "" == s[..|s| - 1];
      }
    } else {
      var u := t[..|t| - 1];
      assert s + t == (s + u) + [t[|t| - 1]];
      assert IsDigit((s + t)[|s + t| - 1]);
      assert forall i :: 0 <= i < |s + u| ==> (s + u)[i] == (s + t)[i];
      DecValueGrows(s, u);
      DecValueSnoc(s + u, t[|t| - 1]);
    }
  }

  /** Printed sizes have no leading zero. */
  lemma {:induction false} NoLeadingZero(n: nat)
    ensures Decimal(n)[0] == '0' <==> n == 0
  {
    if n < 10 {
    } else {
      NoLeadingZero(n / 10);
    }
  }

  /** White space for `std::stoi`: space, tab, line feed, vertical tab, form feed, carriage return. */
  predicate Skipped(s: string) { forall i :: 0 <= i < |s| ==> s[i] as int in {32, 9, 10, 11, 12, 13} }

  lemma {:induction false} SkipsAll(space: string, rest: string)
    requires Skipped(space) && (rest == "" || rest[0] as int !in {32, 9, 10, 11, 12, 13})
    ensures SkipSpaces(space + rest) == rest
  {
    if space == "" {
      assert space + rest == rest;
    } else {
      assert (space + rest)[0] == space[0] && (space + rest)[1..] == space[1..] + rest;
      SkipsAll(space[1..], rest);
    }
  }

  lemma {:induction false} DigitRunStops(digits: string, rest: string)
    requires Digits(digits) && (rest == "" || !IsDigit(rest[0]))
    ensures DigitRun(digits + rest) == |digits|
  {
    if digits == "" {
      assert digits + rest == rest;
    } else {
      assert (digits + rest)[0] == digits[0] && (digits + rest)[1..] == digits[1..] + rest;
      DigitRunStops(digits[1..], rest);
    }
  }

  /** `std::stoi` skips leading white space, takes one sign, then all digits there are, and stops; it throws
      when there is no digit and when the number is not that of an `int` of 32 bits. */
  lemma StoiReads(space: string, sign: string, digits: string, rest: string)
    requires Skipped(space) && sign in {"", "+", "-"} && Digits(digits) && (rest == "" || !IsDigit(rest[0]))
    requires sign == "" && digits == "" && rest != "" ==>
               rest[0] !in {'+', '-'} && rest[0] as int !in {32, 9, 10, 11, 12, 13}
    ensures var n := if sign == "-" then -DecValue(digits) else DecValue(digits);
            Stoi(space + (sign + (digits + rest))) ==
            if digits != "" && -2147483648 <= n <= 2147483647 then Some(n) else None
  {
    FirstOfNumber(sign, digits, rest);
    SkipsAll(space, sign + (digits + rest));
    if sign == "" {
      assert sign + (digits + rest) == digits + rest;
      UnsignedReads(space + (sign + (digits + rest)), digits, rest);
    } else {
      SignedReads(space + (sign + (digits + rest)), sign[0], digits, rest);
    }
  }

  lemma FirstOfNumber(sign: string, digits: string, rest: string)
    requires sign in {"", "+", "-"} && Digits(digits)
    requires sign == "" && digits == "" && rest != "" ==>
               rest[0] !in {'+', '-'} && rest[0] as int !in {32, 9, 10, 11, 12, 13}
    ensures var t := sign + (digits + rest); t == "" || t[0] as int !in {32, 9, 10, 11, 12, 13}
    ensures sign != "" ==> sign == [sign[0]] && sign[0] in {'+', '-'} && (sign == "-" <==> sign[0] == '-')
  {
    assert digits != "" ==> IsDigit(digits[0]);
  }

  lemma DigitsRead(digits: string, rest: string)
    requires Digits(digits) && (rest == "" || !IsDigit(rest[0]))
    ensures var u := digits + rest; DigitRun(u) == |digits| && u[..|digits|] == digits
  {
    DigitRunStops(digits, rest);
  }

  lemma UnsignedReads(s: string, digits: string, rest: string)
    requires SkipSpaces(s) == digits + rest && Digits(digits) && (rest == "" || !IsDigit(rest[0]))
    requires digits == "" && rest != "" ==> rest[0] !in {'+', '-'}
    ensures var n := DecValue(digits);
            Stoi(s) == if digits != "" && -2147483648 <= n <= 2147483647 then Some(n) else None
  {
    DigitsRead(digits, rest);
    assert digits != "" ==> (digits + rest)[0] == digits[0] && IsDigit(digits[0]);
  }

  lemma SignedReads(s: string, sign: char, digits: string, rest: string)
    requires SkipSpaces(s) == [sign] + (digits + rest) && Digits(digits) && (rest == "" || !IsDigit(rest[0]))
    requires sign in {'+', '-'}
    ensures var n := if sign == '-' then -DecValue(digits) else DecValue(digits);
            Stoi(s) == if digits != "" && -2147483648 <= n <= 2147483647 then Some(n) else None
  {
    DigitsRead(digits, rest);
    assert ([sign] + (digits + rest))[1..] == digits + rest;
  }
}
