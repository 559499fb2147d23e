/** Decimal numerals, and series of names that outrun any finite set of accounts. */
module Decimals {
  function Digit(d: nat): char
    requires d < 10
  {
    (d + '0' as int) as char
  }

  function Decimal(n: nat): string {
    if n < 10 then [Digit(n)] else Decimal(n / 10) + [Digit(n % 10)]
  }

  /** The number a string of digits stands for. */
  function Read(digits: string): int {
    if digits == "" then 0
    else 10 * Read(digits[..|digits| - 1]) + (digits[|digits| - 1] as int - '0' as int)
  }

  /** A numeral consists of digits, has no leading zero unless it is zero, and reads as its number. */
  lemma {:induction false} DecimalReads(n: nat)
    ensures var s := Decimal(n);
            s != "" && Read(s) == n && (s[0] == '0' ==> n == 0) && forall i :: 0 <= i < |s| ==> '0' <= s[i] <= '9'
  {
    if n >= 10 {
      DecimalReads(n / 10);
      var front, s := Decimal(n / 10), Decimal(n);
      assert s[..|s| - 1] == front && s[0] == front[0];
    }
  }

  lemma DecimalSize(n: nat)
    ensures |Decimal(n)| > 0 && (|Decimal(n)| == 1 <==> n < 10)
  {
    if n >= 10 {
      DecimalSize(n / 10);
    }
  }

  lemma {:induction false} DecimalsDiffer(a: nat, b: nat)
    requires Decimal(a) == Decimal(b)
    ensures a == b
  {
    DecimalSize(a);
    DecimalSize(b);
    var x, y := Decimal(a), Decimal(b);
    assert x[|x| - 1] == y[|y| - 1];
    if a >= 10 {
      assert x[..|x| - 1] == Decimal(a / 10) && y[..|y| - 1] == Decimal(b / 10);
      DecimalsDiffer(a / 10, b / 10);
    }
  }

  /** In a series without repetition, `n` taken names are `n` different members of the set. */
  lemma {:induction false} TakenNamesAreFew(name: nat -> string, n: nat, taken: set<string>)
    requires forall a: nat, b: nat :: name(a) == name(b) ==> a == b
    requires forall k: nat :: k < n ==> name(k) in taken
    ensures n <= |taken|
  {
    if n > 0 {
      var last := name(n - 1);
      assert forall k: nat :: k < n - 1 ==> name(k) in taken - {last};
      TakenNamesAreFew(name, n - 1, taken - {last});
    }
  }
}
