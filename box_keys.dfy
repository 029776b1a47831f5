/** Box identity in PalletVisualization.js: the template literal
    `${layer_index}_${index}`, with JavaScript's decimal rendering of integers. */
module BoxKeys {

  const Decimal := "0123456789"

  predicate IsDigit(c: char)
  {
    '0' <= c <= '9'
  }

  function DigitValue(c: char): int
  {
    c as int - '0' as int
  }

  /** Decimal rendering of a natural number, most significant digit first. */
  function NatToString(n: nat): (s: string)
    ensures |s| >= 1
    ensures forall c :: c in s ==> IsDigit(c)
    decreases n
  {
    if n < 10 then [Decimal[n]] else NatToString(n / 10) + [Decimal[n % 10]]
  }

  /** Decimal rendering of an integer, with a leading '-' when it is negative. */
  function IntToString(n: int): (s: string)
    ensures |s| >= 1
    ensures '_' !in s
  {
    if n < 0 then "-" + NatToString(-n) else NatToString(n)
  }

  /** Reads back a string of decimal digits. */
  function ParseNat(s: string): int
  {
    if |s| == 0 then 0 else 10 * ParseNat(s[..|s| - 1]) + DigitValue(s[|s| - 1])
  }

  function ParseInt(s: string): int
  {
    if |s| > 0 && s[0] == '-' then -ParseNat(s[1..]) else ParseNat(s)
  }

  lemma {:induction false} NatToStringRoundTrip(n: nat)
    ensures ParseNat(NatToString(n)) == n
    decreases n
  {
    var s := NatToString(n);
    if n >= 10 {
      NatToStringRoundTrip(n / 10);
      assert s[..|s| - 1] == NatToString(n / 10);
    }
  }

  /** Canonical form: no leading zero except for zero itself. */
  lemma {:induction false} NatToStringNoLeadingZero(n: nat)
    ensures NatToString(n)[0] == '0' <==> n == 0
    decreases n
  {
    if n >= 10 {
      NatToStringNoLeadingZero(n / 10);
    }
  }

  lemma IntToStringRoundTrip(n: int)
    ensures ParseInt(IntToString(n)) == n
  {
    if n < 0 {
      NatToStringRoundTrip(-n);
      assert IntToString(n)[1..] == NatToString(-n);
    } else {
      NatToStringRoundTrip(n);
      assert IntToString(n)[0] in NatToString(n);
    }
  }

  lemma NatToStringInjective(a: nat, b: nat)
    ensures NatToString(a) == NatToString(b) ==> a == b
  {
    NatToStringRoundTrip(a);
    NatToStringRoundTrip(b);
  }

  lemma IntToStringInjective(a: int, b: int)
    ensures IntToString(a) == IntToString(b) ==> a == b
  {
    IntToStringRoundTrip(a);
    IntToStringRoundTrip(b);
  }

  /** The key of the box at position `index` of the layer with index `layerIndex`. */
  /** The key decodes: its first separator splits it into the decimal renderings of
      the layer index and of the position in the layer. */
  function BoxKey(layerIndex: int, index: nat): (key: string)
    ensures SeparatorPosition(key) < |key|
    ensures ParseInt(key[..SeparatorPosition(key)]) == layerIndex
    ensures ParseNat(key[SeparatorPosition(key) + 1..]) == index
  {
    var a, b := IntToString(layerIndex), NatToString(index);
    SeparatorAfterPrefix(a, b);
    IntToStringRoundTrip(layerIndex);
    NatToStringRoundTrip(index);
    assert (a + "_" + b)[..|a|] == a && (a + "_" + b)[|a| + 1..] == b;
    a + "_" + b
  }

  /** Position of the first separator in `s` (|s| when there is none). */
  function SeparatorPosition(s: string): nat
  {
    if |s| == 0 || s[0] == '_' then 0 else 1 + SeparatorPosition(s[1..])
  }

  lemma {:induction false} SeparatorAfterPrefix(a: string, b: string)
    requires '_' !in a
    ensures SeparatorPosition(a + "_" + b) == |a|
    decreases |a|
  {
    if |a| > 0 {
      assert (a + "_" + b)[1..] == a[1..] + "_" + b;
      SeparatorAfterPrefix(a[1..], b);
    }
  }

  /** Splitting a string at its first separator recovers both parts. */
  lemma SplitAtSeparator(a: string, b: string, c: string, d: string)
    requires '_' !in a && '_' !in c
    requires a + "_" + b == c + "_" + d
    ensures a == c && b == d
  {
    var s := a + "_" + b;
    SeparatorAfterPrefix(a, b);
    SeparatorAfterPrefix(c, d);
    assert a == s[..|a|] == c;
    assert b == s[|a| + 1..] == d;
  }

  /** Thanks to the separator, the key determines both the layer index and the
      position in the layer. */
  lemma BoxKeyInjective(l1: int, i1: nat, l2: int, i2: nat)
    ensures BoxKey(l1, i1) == BoxKey(l2, i2) <==> l1 == l2 && i1 == i2
  {
    if BoxKey(l1, i1) == BoxKey(l2, i2) {
      SplitAtSeparator(IntToString(l1), NatToString(i1), IntToString(l2), NatToString(i2));
      IntToStringInjective(l1, l2);
      NatToStringInjective(i1, i2);
    }
  }

  /** Without the separator the encoding would not be injective: layer 1, box 11
      and layer 11, box 1 would share "111". */
  lemma SeparatorIsNeeded()
    ensures IntToString(1) + NatToString(11) == IntToString(11) + NatToString(1)
    ensures BoxKey(1, 11) != BoxKey(11, 1)
  {
    BoxKeyInjective(1, 11, 11, 1);
  }
}
