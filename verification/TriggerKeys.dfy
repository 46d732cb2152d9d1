/** The durable identity of a triggered communication: node id, colon, trigger index. */
module TriggerKeys {

  const DIGITS := "0123456789"

  /** Decimal notation of a natural number. */
  function Decimal(n: nat): string {
    if n < 10 then [DIGITS[n]] else Decimal(n / 10) + [DIGITS[n % 10]]
  }

  function TriggerKey(node: string, index: nat): string {
    node + ":" + Decimal(index)
  }

  lemma DigitsDistinct(i: nat, j: nat)
    requires i < 10 && j < 10 && DIGITS[i] == DIGITS[j]
    ensures i == j
  {
  }

  lemma DigitsAreNotColons(i: nat)
    requires i < 10
    ensures DIGITS[i] != ':'
  {
  }

  lemma {:induction false} DecimalIsDigits(n: nat)
    ensures Decimal(n) != "" && ':' !in Decimal(n)
  {
    DigitsAreNotColons(n % 10);
    if n >= 10 { DecimalIsDigits(n / 10); }
  }

  lemma {:induction false} DecimalInjective(m: nat, n: nat)
    requires Decimal(m) == Decimal(n)
    ensures m == n
  {
    var a, b := Decimal(m), Decimal(n);
    if m >= 10 { DecimalIsDigits(m / 10); }
    if n >= 10 { DecimalIsDigits(n / 10); }
    assert a[|a| - 1] == DIGITS[m % 10] && b[|b| - 1] == DIGITS[n % 10];
    DigitsDistinct(m % 10, n % 10);
    if m >= 10 {
      assert a[..|a| - 1] == Decimal(m / 10) && b[..|b| - 1] == Decimal(n / 10);
      DecimalInjective(m / 10, n / 10);
    }
  }

  /** The last colon of a key separates the node id from the index. */
  lemma LastColon(node: string, index: nat)
    ensures var key := TriggerKey(node, index);
            && |node| < |key| && key[|node|] == ':'
            && (forall i | |node| < i < |key| :: key[i] != ':')
            && key[..|node|] == node && key[|node| + 1..] == Decimal(index)
  {
    DecimalIsDigits(index);
    var key := TriggerKey(node, index);
    forall i | |node| < i < |key| ensures key[i] != ':' {
      assert key[i] == Decimal(index)[i - |node| - 1];
    }
  }

  /** No two triggers of a scenario share a key, even when node ids contain colons. */
  lemma KeysIdentifyTriggers(node: string, index: nat, node': string, index': nat)
    requires TriggerKey(node, index) == TriggerKey(node', index')
    ensures node == node' && index == index'
  {
    LastColon(node, index);
    LastColon(node', index');
    assert |node| == |node'|;
    DecimalInjective(index, index');
  }
}
