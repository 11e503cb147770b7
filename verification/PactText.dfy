/** Integers as text, the way Rust prints and parses them. */
module PactText {
  import opened Ints
  import opened Wrappers

  predicate IsDigit(c: char) {
    '0' <= c <= '9'
  }

  function DigitsValue(d: string): nat {
    if d == "" then 0
    else
      var last := d[|d| - 1];
      10 * DigitsValue(d[..|d| - 1]) + (if IsDigit(last) then last as int - '0' as int else 0)
  }

  // `str::parse::<i128>`: digits behind an optional sign.
  function ParseI128(t: string): Option<i128> {
    var negative := t != "" && t[0] == '-';
    var digits := if negative || (t != "" && t[0] == '+') then t[1..] else t;
    var n: int := DigitsValue(digits);
    var v := if negative then -n else n;
    if digits == "" || (exists i :: 0 <= i < |digits| && !IsDigit(digits[i])) || !(-U128 / 2 <= v < U128 / 2) then None
    else Some(v)
  }

  function Digit(d: nat): (c: char)
    requires d < 10
    ensures IsDigit(c) && c as int - '0' as int == d
  {
    (d + '0' as int) as char
  }

  function PrintNat(n: nat): (t: string)
    ensures t != "" && forall i :: 0 <= i < |t| ==> IsDigit(t[i])
  {
    if n < 10 then [Digit(n)] else PrintNat(n / 10) + [Digit(n % 10)]
  }

  function PrintInt(n: int): (t: string)
    ensures t != ""
  {
    if n < 0 then "-" + PrintNat(Abs(n)) else PrintNat(n)
  }

  // The hexadecimal digits of a number, without leading zeros.
  function PrintHex(n: nat): (t: string)
    ensures t != ""
  {
    if n < 16 then [HexDigit(n)] else PrintHex(n / 16) + [HexDigit(n % 16)]
  }

  function HexDigit(d: nat): char
    requires d < 16
  {
    if d < 10 then Digit(d) else (d - 10 + 'a' as int) as char
  }

  lemma {:induction false} ValueOfPrinted(n: nat)
    ensures DigitsValue(PrintNat(n)) == n
  {
    if n < 10 {
      assert [Digit(n)][..0] == "";
    } else {
      var t := PrintNat(n / 10);
      ValueOfPrinted(n / 10);
      assert (t + [Digit(n % 10)])[..|t|] == t;
    }
  }

  // Every i128 is read back from its decimal digits.
  lemma ParseDecimal(n: i128)
    ensures ParseI128(PrintInt(n)) == Some(n)
  {
    hide DigitsValue, PrintNat;
    var t := PrintInt(n);
    var digits := PrintNat(Abs(n));
    ValueOfPrinted(Abs(n));
    if n < 0 {
      assert t[0] == '-' && t[1..] == digits;
    } else {
      assert IsDigit(t[0]);
    }
  }
}
