/** Sequential identifiers. Both registries issue the decimal string of the
    collection's size plus one, as Python's str(len(collection) + 1). */
module Ids {

  /** The character of a decimal digit. */
  function DigitChar(d: nat): (c: char)
    requires d < 10
    ensures '0' <= c <= '9'
    ensures c as int - '0' as int == d
  {
    ('0' as int + d) as char
  }

  /** Python's str(n) for a non-negative integer: no sign, no leading zero. */
  function DecimalString(n: nat): (s: string)
    ensures 1 <= |s|
    ensures |s| == 1 <==> n < 10
    ensures forall i :: 0 <= i < |s| ==> '0' <= s[i] <= '9'
    ensures s[0] == '0' ==> n == 0
  {
    if n < 10 then [DigitChar(n)] else DecimalString(n / 10) + [DigitChar(n % 10)]
  }

  /** The number a string of decimal digits spells, most significant digit first. */
  function DecimalValue(s: string): int
  {
    if s == [] then 0 else 10 * DecimalValue(s[..|s| - 1]) + (s[|s| - 1] as int - '0' as int)
  }

  /** Reading the identifier back gives the number it was made from. */
  lemma {:induction false} DecimalValueOfString(n: nat)
    ensures DecimalValue(DecimalString(n)) == n
  {
    var s := DecimalString(n);
    if n >= 10 {
      assert s[..|s| - 1] == DecimalString(n / 10);
      DecimalValueOfString(n / 10);
    }
  }

  /** Distinct numbers give distinct identifiers. */
  lemma {:induction false} DecimalStringInjective(m: nat, n: nat)
    requires DecimalString(m) == DecimalString(n)
    ensures m == n
  {
    DecimalValueOfString(m);
    DecimalValueOfString(n);
  }

  /** The identifiers "1" .. "n" issued by n successive allocations. */
  function IdSet(n: nat): set<string>
  {
    if n == 0 then {} else IdSet(n - 1) + {DecimalString(n)}
  }

  /** str(k) was issued among the first n allocations exactly when 1 <= k <= n. */
  lemma {:induction false} IdSetMembership(n: nat, k: nat)
    ensures DecimalString(k) in IdSet(n) <==> 1 <= k <= n
  {
    if n > 0 {
      IdSetMembership(n - 1, k);
      if DecimalString(k) == DecimalString(n) {
        DecimalStringInjective(k, n);
      }
    }
  }

  /** Every identifier among the first n allocations is str(k) for some 1 <= k <= n. */
  lemma {:induction false} IdSetElements(n: nat, x: string)
    requires x in IdSet(n)
    ensures exists k :: 1 <= k <= n && x == DecimalString(k)
  {
    if x != DecimalString(n) {
      IdSetElements(n - 1, x);
    }
  }
}
