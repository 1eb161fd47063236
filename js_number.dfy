/** The part of JavaScript's value model that the series builder relies on:
    spreadsheet cells that may be absent, and `Number(...)` applied to them.
    Numbers are integers or NaN; floating point is not modelled. */
module JsNumber {

  /** A cell read out of a row: `row[k]` is the text of the cell when `k` is
      inside the row and `undefined` past its end. */
  datatype Cell = Text(s: string) | Undefined

  /** `row[k]` in JavaScript. */
  function CellAt(row: seq<string>, k: nat): Cell
  {
    if k < |row| then Text(row[k]) else Undefined
  }

  /** A JavaScript number, restricted to integers and NaN. */
  datatype Num = Val(v: int) | NaN

  /** JavaScript `+` on numbers: NaN absorbs everything. */
  function Add(a: Num, b: Num): Num
  {
    if a.Val? && b.Val? then Val(a.v + b.v) else NaN
  }

  predicate IsDigit(c: char)
  {
    '0' <= c <= '9'
  }

  predicate IsSign(c: char)
  {
    c == '+' || c == '-'
  }

  predicate IsDigits(s: string)
  {
    forall i :: 0 <= i < |s| ==> IsDigit(s[i])
  }

  function DigitValue(c: char): nat
    requires IsDigit(c)
  {
    (c as int) - ('0' as int)
  }

  /** The value of a decimal digit string, most significant digit first. */
  function DigitsValue(s: string): nat
    requires IsDigits(s)
  {
    if s == [] then 0 else DigitsValue(s[..|s| - 1]) * 10 + DigitValue(s[|s| - 1])
  }

  /** `Number(text)` for the texts this model understands: the empty string is 0,
      an optional sign followed by at least one decimal digit is that integer,
      and every other text is NaN. */
  function ParseText(s: string): Num
  {
    if s == [] then Val(0)
    else if IsDigits(s) then Val(DigitsValue(s))
    else if |s| > 1 && IsSign(s[0]) && IsDigits(s[1..]) then
      var d: int := DigitsValue(s[1..]);
      Val(if s[0] == '-' then -d else d)
    else NaN
  }

  /** `Number(row[k])`: `Number(undefined)` is NaN. */
  function Number(c: Cell): Num
  {
    match c
    case Undefined => NaN
    case Text(s) => ParseText(s)
  }

  function DigitChar(d: nat): (c: char)
    requires d < 10
    ensures IsDigit(c) && DigitValue(c) == d
  {
    ('0' as int + d) as char
  }

  /** The decimal digits of `n`, without leading zeros. */
  function NatDigits(n: nat): (s: string)
    ensures s != [] && IsDigits(s)
  {
    if n < 10 then [DigitChar(n)] else NatDigits(n / 10) + [DigitChar(n % 10)]
  }

  /** JavaScript `String(n)` for an integer `n`: the text a spreadsheet cell holds
      for a count of cups. */
  function Show(n: int): string
  {
    if n < 0 then "-" + NatDigits(-n) else NatDigits(n)
  }

  lemma {:induction false} DigitsValueOfNatDigits(n: nat)
    ensures DigitsValue(NatDigits(n)) == n
  {
    if n >= 10 {
      var s := NatDigits(n);
      assert s[..|s| - 1] == NatDigits(n / 10);
      DigitsValueOfNatDigits(n / 10);
    }
  }

  /** `Number` reads back every integer that `String` writes. */
  lemma ParseShow(n: int)
    ensures Number(Text(Show(n))) == Val(n)
  {
    if n < 0 {
      var s := Show(n);
      assert s[0] == '-';
      assert !IsDigits(s) by { assert !IsDigit(s[0]); }
      assert s[1..] == NatDigits(-n);
      DigitsValueOfNatDigits(-n);
    } else {
      DigitsValueOfNatDigits(n);
    }
  }

  /** A text with a character that is neither a digit nor a leading sign in
      front of further digits is not a number. */
  lemma NonNumeralIsNaN(s: string, i: nat)
    requires i < |s| && !IsDigit(s[i])
    requires i == 0 ==> !IsSign(s[0]) || |s| == 1
    ensures ParseText(s) == NaN
  {
    assert !IsDigits(s);
    if i > 0 {
      assert !IsDigits(s[1..]) by { assert s[1..][i - 1] == s[i]; }
    }
  }

  /** `z` zero digits. */
  function Zeros(z: nat): (s: string)
    ensures IsDigits(s)
  {
    if z == 0 then "" else "0" + Zeros(z - 1)
  }

  lemma {:induction false} LeadingZeroAddsNothing(s: string)
    requires IsDigits(s)
    ensures IsDigits("0" + s) && DigitsValue("0" + s) == DigitsValue(s)
  {
    if s != [] {
      var t := "0" + s;
      assert t[..|t| - 1] == "0" + s[..|s| - 1];
      LeadingZeroAddsNothing(s[..|s| - 1]);
    } else {
      assert ("0" + s)[..0] == [];
    }
  }

  lemma {:induction false} LeadingZerosAddNothing(z: nat, s: string)
    requires IsDigits(s)
    ensures IsDigits(Zeros(z) + s) && DigitsValue(Zeros(z) + s) == DigitsValue(s)
  {
    if z > 0 {
      LeadingZerosAddNothing(z - 1, s);
      assert Zeros(z) + s == "0" + (Zeros(z - 1) + s);
      LeadingZeroAddsNothing(Zeros(z - 1) + s);
    } else {
      assert Zeros(z) + s == s;
    }
  }

  /** Leading zeros do not change the number a cell holds: "007" is 7. */
  lemma NumberIgnoresLeadingZeros(z: nat, n: nat)
    ensures Number(Text(Zeros(z) + NatDigits(n))) == Val(n)
  {
    LeadingZerosAddNothing(z, NatDigits(n));
    DigitsValueOfNatDigits(n);
  }

  lemma AddCommutes(a: Num, b: Num)
    ensures Add(a, b) == Add(b, a)
  {
  }

  lemma AddAssociates(a: Num, b: Num, c: Num)
    ensures Add(Add(a, b), c) == Add(a, Add(b, c))
  {
  }
}
