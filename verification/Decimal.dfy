/** Numbers as decimal text. */
module Decimal {

  predicate IsDigit(c: char) { '0' <= c <= '9' }

  function DecimalValue(s: string): int {
    if s == "" then 0 else 10 * DecimalValue(s[..|s| - 1]) + (s[|s| - 1] as int - '0' as int)
  }

  predicate AllDigits(s: string) { s != "" && forall i :: 0 <= i < |s| ==> IsDigit(s[i]) }

  /** strconv.Atoi with its error mapped to 0, as the caller does; numbers are not bounded here. */
  function AtoiOrZero(s: string): int {
    var negative := s != "" && s[0] == '-';
    var body := if s != "" && (s[0] == '-' || s[0] == '+') then s[1..] else s;
    if !AllDigits(body) then 0
    else if negative then -DecimalValue(body) else DecimalValue(body)
  }

  function Digits(n: nat): string {
    if n < 10 then ['0' + n as char] else Digits(n / 10) + ['0' + (n % 10) as char]
  }

  function Itoa(n: int): string { if n < 0 then "-" + Digits(-n) else Digits(n) }

  lemma {:induction false} ValueOfThree(a: char, b: char, c: char)
    requires IsDigit(a) && IsDigit(b) && IsDigit(c)
    ensures DecimalValue([a, b, c]) == 100 * (a as int - 48) + 10 * (b as int - 48) + (c as int - 48)
  {
    assert [a, b, c][..2] == [a, b] && [a, b][..1] == [a] && [a][..0] == "";
    assert DecimalValue([a]) == a as int - 48;
    assert DecimalValue([a, b]) == 10 * DecimalValue([a]) + (b as int - 48);
  }

  lemma {:induction false} DigitsRead(n: nat)
    ensures AllDigits(Digits(n))
    ensures DecimalValue(Digits(n)) == n
  {
    if n >= 10 {
      DigitsRead(n / 10);
      var s := Digits(n);
      assert s[..|s| - 1] == Digits(n / 10);
    } else {
      assert Digits(n)[..0] == "";
    }
  }

  /** What strconv.Itoa writes, strconv.Atoi reads, also behind a plus sign. */
  lemma ItoaReads(n: int)
    ensures AtoiOrZero(Itoa(n)) == n && (n >= 0 ==> AtoiOrZero("+" + Itoa(n)) == n)
  {
    DigitsRead(if n < 0 then -n else n);
    if n < 0 { assert Itoa(n)[1..] == Digits(-n); } else { assert ("+" + Itoa(n))[1..] == Itoa(n); }
  }

  /** Text with anything but digits behind its first character is no number. */
  lemma NoNumberReadsAsZero(s: string, i: nat)
    requires 0 < i < |s| && !IsDigit(s[i])
    ensures AtoiOrZero(s) == 0
  {
    if s[0] == '-' || s[0] == '+' {
      assert s[1..][i - 1] == s[i];
      assert !AllDigits(s[1..]);
    } else {
      assert !AllDigits(s);
    }
  }

  /** Digits without a leading zero. */
  predicate Plain(s: string) {
    AllDigits(s) && (|s| > 1 ==> s[0] != '0')
  }

  lemma {:induction false} DigitsArePlain(n: nat)
    ensures Plain(Digits(n)) && (n > 0 ==> Digits(n)[0] != '0')
  {
    if n >= 10 { DigitsArePlain(n / 10); }
  }

  lemma {:induction false} PlainIsDigits(s: string)
    requires Plain(s)
    ensures DecimalValue(s) >= 0 && (s[0] != '0' ==> DecimalValue(s) > 0) && Digits(DecimalValue(s)) == s
  {
    var last := |s| - 1;
    if last == 0 {
      assert s[..0] == "";
      assert s == [s[0]];
    } else {
      PlainIsDigits(s[..last]);
      var v, d := DecimalValue(s[..last]), s[last] as int - '0' as int;
      assert (10 * v + d) / 10 == v && (10 * v + d) % 10 == d;
      assert s == s[..last] + [s[last]];
    }
  }

  /** The decimal text of n: a minus sign if it is negative, and plain digits of its absolute value. */
  predicate IsDecimalOf(s: string, n: int) {
    if n < 0 then s != "" && s[0] == '-' && Plain(s[1..]) && DecimalValue(s[1..]) == -n
    else Plain(s) && DecimalValue(s) == n
  }

  /** A number has one decimal text, the one strconv.Itoa writes. */
  lemma ItoaExactly(s: string, n: int)
    ensures s == Itoa(n) <==> IsDecimalOf(s, n)
  {
    var size := if n < 0 then -n else n;
    DigitsRead(size);
    DigitsArePlain(size);
    if n < 0 {
      assert Itoa(n)[1..] == Digits(-n);
      if IsDecimalOf(s, n) {
        PlainIsDigits(s[1..]);
        assert s == "-" + s[1..];
      }
    } else if IsDecimalOf(s, n) {
      PlainIsDigits(s);
    }
  }
}
