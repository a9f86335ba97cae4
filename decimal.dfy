/** Decimal text of integers, as JavaScript writes a number into a template
    string (`${port}`), and the unary `+` conversion of a query string to a
    number, restricted to integer texts. */
module Decimal {

  predicate IsDigit(c: char) {
    '0' <= c <= '9'
  }

  predicate IsDigits(s: string) {
    forall i :: 0 <= i < |s| ==> IsDigit(s[i])
  }

  function DigitChar(d: nat): (c: char)
    requires d < 10
    ensures IsDigit(c) && c as int - '0' as int == d
  {
    (d + '0' as int) as char
  }

  /** The decimal text of a natural number, without leading zeros. */
  function ShowNat(n: nat): (s: string)
    ensures |s| > 0 && IsDigits(s)
    ensures n >= 10 ==> s[0] != '0'
    decreases n
  {
    if n < 10 then [DigitChar(n)] else ShowNat(n / 10) + [DigitChar(n % 10)]
  }

  /** The value of a string of decimal digits ("" reads as 0). */
  function ParseDigits(s: string): (n: nat)
    requires IsDigits(s)
  {
    if s == [] then 0
    else ParseDigits(s[..|s| - 1]) * 10 + (s[|s| - 1] as int - '0' as int)
  }

  /** Reading back the text of a number gives the number. */
  lemma {:induction false} ParseShowNat(n: nat)
    ensures ParseDigits(ShowNat(n)) == n
    decreases n
  {
    if n >= 10 {
      var s := ShowNat(n);
      assert s[..|s| - 1] == ShowNat(n / 10);
      ParseShowNat(n / 10);
    }
  }

  /** Distinct numbers have distinct texts. */
  lemma ShowNatInjective(m: nat, n: nat)
    requires m != n
    ensures ShowNat(m) != ShowNat(n)
  {
    ParseShowNat(m);
    ParseShowNat(n);
  }

  /** A JavaScript integer in a template string: a minus sign for negative
      values, then the digits. */
  function ShowInt(i: int): (s: string)
    ensures |s| > 0
    ensures i < 0 <==> s[0] == '-'
  {
    if i < 0 then "-" + ShowNat(-i) else ShowNat(i)
  }

  /** The number a JavaScript `+text` produces, for the texts the model
      reads: an optional minus sign followed by decimal digits (the empty
      text reads as 0, as in JavaScript); any other text is NaN here. The
      value is an exact integer: JavaScript's double rounds integers
      beyond 2^53, which the model does not. */
  datatype JsNumber = Num(value: int) | NaN

  function ToNumber(text: string): JsNumber {
    if IsDigits(text) then Num(ParseDigits(text))
    else if |text| >= 2 && text[0] == '-' && IsDigits(text[1..]) then Num(0 - ParseDigits(text[1..]))
    else NaN
  }

  /** The text JavaScript prints for a number, for integers below 10^21
      (from 10^21 on JavaScript switches to exponent form, which the model
      does not). */
  function NumberText(n: JsNumber): string {
    match n
    case Num(v) => ShowInt(v)
    case NaN => "NaN"
  }

  /** Converting the printed text of an integer back gives the integer. */
  lemma ToNumberShowInt(i: int)
    ensures ToNumber(ShowInt(i)) == Num(i)
  {
    if i < 0 {
      var s := ShowInt(i);
      assert s[1..] == ShowNat(-i);
      ParseShowNat(-i);
    } else {
      ParseShowNat(i);
    }
  }

  /** Distinct integers print differently (ports become distinct URL parts
      and distinct port-binding keys). */
  lemma ShowIntInjective(i: int, j: int)
    requires i != j
    ensures ShowInt(i) != ShowInt(j)
  {
    ToNumberShowInt(i);
    ToNumberShowInt(j);
  }
}
