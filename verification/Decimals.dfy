/** Decimal numerals without sign or leading zeros. */
module Decimals {
  predicate Digits(s: string) {
    forall i | 0 <= i < |s| :: '0' <= s[i] <= '9'
  }

  function NumberOf(s: string): nat
    requires Digits(s)
  {
    if s == "" then 0 else 10 * NumberOf(s[..|s| - 1]) + (s[|s| - 1] as int - '0' as int)
  }

  function Decimal(n: nat): (s: string)
    ensures s != "" && Digits(s)
  {
    if n < 10 then [n as char + '0'] else Decimal(n / 10) + [(n % 10) as char + '0']
  }

  function PowerOfTen(k: nat): nat {
    if k == 0 then 1 else 10 * PowerOfTen(k - 1)
  }

  lemma {:induction false} DecimalReadsBack(n: nat)
    ensures NumberOf(Decimal(n)) == n
  {
    var s := Decimal(n);
    if n >= 10 {
      assert s[..|s| - 1] == Decimal(n / 10);
      DecimalReadsBack(n / 10);
    } else {
      assert s[..|s| - 1] == "";
    }
  }

  lemma DecimalIsInjective(m: nat, n: nat)
    requires Decimal(m) == Decimal(n)
    ensures m == n
  {
    DecimalReadsBack(m);
    DecimalReadsBack(n);
  }

  /** Numbers below ten to the k have at most k digits, and no others do. */
  lemma {:induction false} DecimalLength(n: nat, k: nat)
    requires k > 0
    ensures |Decimal(n)| <= k <==> n < PowerOfTen(k)
  {
    if k == 1 {
      assert PowerOfTen(1) == 10 * PowerOfTen(0);
    } else if n >= 10 {
      DecimalLength(n / 10, k - 1);
    } else {
      PowerGrows(k);
    }
  }

  lemma {:induction false} PowerGrows(k: nat)
    requires k > 0
    ensures PowerOfTen(k) >= 10
  {
    if k > 1 {
      PowerGrows(k - 1);
    } else {
      assert PowerOfTen(1) == 10 * PowerOfTen(0);
    }
  }
}
