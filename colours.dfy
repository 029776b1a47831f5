/** generateRandomColor in PalletVisualization.js: '#' followed by the
    hexadecimal rendering (lower case, no zero padding) of a random integer below
    16777215. The random number is an input here. */
module Colours {

  const HexAlphabet := "0123456789abcdef"

  /** The factor the random number is multiplied by before flooring; draws are in [0, DrawBound). */
  const DrawBound := 16777215

  predicate IsHexDigit(c: char)
  {
    c in HexAlphabet
  }

  function HexDigitValue(c: char): int
  {
    if '0' <= c <= '9' then c as int - '0' as int else c as int - 'a' as int + 10
  }

  /** Number.prototype.toString(16) on a non-negative integer. */
  function Hex(n: nat): (s: string)
    ensures |s| >= 1
    ensures forall c :: c in s ==> IsHexDigit(c)
    decreases n
  {
    if n < 16 then [HexAlphabet[n]] else Hex(n / 16) + [HexAlphabet[n % 16]]
  }

  function HexValue(s: string): int
  {
    if |s| == 0 then 0 else 16 * HexValue(s[..|s| - 1]) + HexDigitValue(s[|s| - 1])
  }

  function Pow16(k: nat): nat
  {
    if k == 0 then 1 else 16 * Pow16(k - 1)
  }

  lemma {:induction false} HexRoundTrip(n: nat)
    ensures HexValue(Hex(n)) == n
    decreases n
  {
    var s := Hex(n);
    if n >= 16 {
      HexRoundTrip(n / 16);
      assert s[..|s| - 1] == Hex(n / 16);
    }
    assert HexDigitValue(HexAlphabet[n % 16]) == n % 16;
  }

  /** No zero padding: the rendering has at most k digits exactly when n < 16^k. */
  lemma {:induction false} HexLength(n: nat, k: nat)
    requires k >= 1
    ensures |Hex(n)| <= k <==> n < Pow16(k)
    decreases n
  {
    if n >= 16 {
      if k == 1 {
        assert Pow16(1) == 16;
      } else {
        HexLength(n / 16, k - 1);
      }
    } else {
      PowAtLeast16(k);
    }
  }

  lemma {:induction false} PowAtLeast16(k: nat)
    requires k >= 1
    ensures Pow16(k) >= 16
  {
    if k > 1 {
      PowAtLeast16(k - 1);
    }
  }

  predicate IsColourString(s: string)
  {
    |s| >= 2 && s[0] == '#' && forall c :: c in s[1..] ==> IsHexDigit(c)
  }

  /** The colour string for the floored draw `draw`. */
  function RandomColour(draw: int): (c: string)
    requires 0 <= draw < DrawBound
    ensures IsColourString(c) && |c| <= 7
  {
    HexLength(draw, 6);
    "#" + Hex(draw)
  }

  /** The digits after '#' read back as the draw, so different draws give
      different colours, and the largest value ffffff is never produced. */
  lemma RandomColourDecodes(draw: int)
    requires 0 <= draw < DrawBound
    ensures HexValue(RandomColour(draw)[1..]) == draw
    ensures RandomColour(draw) != "#ffffff"
  {
    HexRoundTrip(draw);
    assert RandomColour(draw)[1..] == Hex(draw);
    var f := "ffffff";
    assert HexValue(f[..1]) == 15 by { assert f[..1][..0] == []; }
    assert HexValue(f[..2]) == 255 by { assert f[..2][..1] == f[..1]; }
    assert HexValue(f[..3]) == 4095 by { assert f[..3][..2] == f[..2]; }
    assert HexValue(f[..4]) == 65535 by { assert f[..4][..3] == f[..3]; }
    assert HexValue(f[..5]) == 1048575 by { assert f[..5][..4] == f[..4]; }
    assert HexValue(f) == 16777215 by { assert f[..5] == f[..|f| - 1]; }
  }

  lemma RandomColourInjective(d1: int, d2: int)
    requires 0 <= d1 < DrawBound && 0 <= d2 < DrawBound
    ensures RandomColour(d1) == RandomColour(d2) <==> d1 == d2
  {
    RandomColourDecodes(d1);
    RandomColourDecodes(d2);
  }

  /** Only draws of at least 0x100000 give the full six digits; smaller draws give
      shorter strings (down to "#0"). */
  lemma RandomColourLength(draw: int)
    requires 0 <= draw < DrawBound
    ensures |RandomColour(draw)| == 7 <==> draw >= 1048576
    ensures |RandomColour(draw)| == 2 <==> draw < 16
  {
    HexLength(draw, 5);
    HexLength(draw, 1);
    assert Pow16(5) == 1048576;
  }
}
