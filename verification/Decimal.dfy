/** Decimal printing of the numbers that end up in generated names and addresses. */
module Decimals {

  const DIGITS := "0123456789"

  function Decimal(n: nat): (text: string)
    ensures text != "" && forall i :: 0 <= i < |text| ==> text[i] in DIGITS
  {
    if n < 10 then [DIGITS[n]] else Decimal(n / 10) + [DIGITS[n % 10]]
  }

  /** The number that a text of digits stands for. */
  function ValueOf(text: string): nat
    requires forall i :: 0 <= i < |text| ==> '0' <= text[i] <= '9'
  {
    if text == "" then 0 else 10 * ValueOf(text[..|text| - 1]) + (text[|text| - 1] as nat - '0' as nat)
  }

  /** Printing gives digits without a leading zero that stand for the number. */
  lemma {:induction false} DecimalMeans(n: nat)
    ensures var text := Decimal(n);
            && (forall i :: 0 <= i < |text| ==> '0' <= text[i] <= '9') && ValueOf(text) == n
            && (text[0] == '0' ==> text == "0")
  {
    if n >= 10 {
      var front, last := Decimal(n / 10), DIGITS[n % 10];
      DecimalMeans(n / 10);
      assert Decimal(n) == front + [last] && (front + [last])[..|front|] == front;
      assert last as nat == '0' as nat + n % 10;
    }
  }

  lemma DecimalParts(n: nat)
    ensures var text := Decimal(n);
            && text[|text| - 1] == DIGITS[n % 10]
            && text[..|text| - 1] == if n < 10 then "" else Decimal(n / 10)
  {
  }

  lemma SameDigit(a: nat, b: nat)
    requires a < 10 && b < 10 && DIGITS[a] == DIGITS[b]
    ensures a == b
  {
  }

  lemma {:induction false} DecimalInjective(a: nat, b: nat)
    requires Decimal(a) == Decimal(b)
    ensures a == b
  {
    hide Decimal;
    DecimalParts(a);
    DecimalParts(b);
    SameDigit(a % 10, b % 10);
    if a >= 10 && b >= 10 {
      DecimalInjective(a / 10, b / 10);
    }
  }

  /** The address of a node inside the WireGuard network. */
  function WireguardIp(nodeId: nat): string {
    "10.0.0." + Decimal(nodeId)
  }

  /** Texts that share a prefix and differ behind it by two numbers differ exactly when the numbers do. */
  lemma NumberedDiffer(prefix: string, a: nat, b: nat)
    requires prefix + Decimal(a) == prefix + Decimal(b)
    ensures a == b
  {
    assert Decimal(a) == (prefix + Decimal(a))[|prefix|..] == (prefix + Decimal(b))[|prefix|..] == Decimal(b);
    DecimalInjective(a, b);
  }
}
