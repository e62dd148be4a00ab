/** Small shared vocabulary: an optional value and the text the program prints numbers with. */
module Basics {

  datatype Option<+T> = None | Some(value: T)

  function Max(a: int, b: int): (m: int)
    ensures m >= a && m >= b && (m == a || m == b)
  {
    if a >= b then a else b
  }

  predicate IsDigit(c: char) { '0' <= c <= '9' }

  function Digit(n: nat): (c: char)
    requires n < 10
    ensures IsDigit(c) && c as int - '0' as int == n
  {
    '0' + n as char
  }

  /** The decimal digits of a natural number, as `%d` writes them. */
  function Decimal(n: nat): (text: string)
    ensures text != [] && forall i | 0 <= i < |text| :: IsDigit(text[i])
  {
    if n < 10 then [Digit(n)] else Decimal(n / 10) + [Digit(n % 10)]
  }

  /** `%d` on an int. */
  function Itoa(n: int): (text: string)
    ensures text != []
    ensures forall i | 0 <= i < |text| :: IsDigit(text[i]) || text[i] == '-'
  {
    if n < 0 then "-" + Decimal(-n) else Decimal(n)
  }

  /** The number a run of decimal digits stands for. */
  function Value(text: string): (n: nat)
    requires forall i | 0 <= i < |text| :: IsDigit(text[i])
  {
    if text == [] then 0
    else
      var last := text[|text| - 1];
      assert IsDigit(last);
      Value(text[..|text| - 1]) * 10 + (last as int - '0' as int)
  }

  lemma ItoaInjective(m: int, n: int)
    requires Itoa(m) == Itoa(n)
    ensures m == n
  {
    assert forall k: nat :: IsDigit(Decimal(k)[0]);
    assert m < 0 ==> Itoa(m)[1..] == Decimal(-m);
    assert n < 0 ==> Itoa(n)[1..] == Decimal(-n);
    ValueOfDecimal(if m < 0 then -m else m);
    ValueOfDecimal(if n < 0 then -n else n);
  }

  lemma {:induction false} ValueOfDecimal(n: nat)
    ensures Value(Decimal(n)) == n
  {
    var text := Decimal(n);
    if n < 10 {
      assert text[..0] == [];
    } else {
      assert text[..|text| - 1] == Decimal(n / 10);
      ValueOfDecimal(n / 10);
    }
  }

  predicate Digits(text: string) {
    text != "" && forall i | 0 <= i < |text| :: IsDigit(text[i])
  }

  /** Reading a decimal number with an optional minus sign. */
  function Signed(text: string): Option<int> {
    if Digits(text) then Some(Value(text))
    else if text != "" && text[0] == '-' && Digits(text[1..]) then Some(-(Value(text[1..]) as int))
    else None
  }

  /** What `%d` writes reads back as the number. */
  lemma ItoaReads(n: int)
    ensures n >= 0 ==> Digits(Itoa(n)) && Value(Itoa(n)) == n
    ensures n < 0 ==> Itoa(n)[0] == '-' && Digits(Itoa(n)[1..]) && Value(Itoa(n)[1..]) == -n
    ensures Signed(Itoa(n)) == Some(n)
  {
    if n >= 0 {
      ValueOfDecimal(n);
    } else {
      assert Itoa(n)[1..] == Decimal(-n);
      ValueOfDecimal(-n);
      assert !IsDigit(Itoa(n)[0]);
    }
  }

  lemma DecimalStep(n: nat)
    requires n >= 10
    ensures Decimal(n) == Decimal(n / 10) + [Digit(n % 10)]
  {
  }

  /** In particular, numbers are written in base ten. */
  lemma ItoaExamples()
    ensures Itoa(0) == "0" && Itoa(-7) == "-7" && Itoa(1920) == "1920"
  {
    DecimalStep(1920);
    DecimalStep(192);
    DecimalStep(19);
  }
}
