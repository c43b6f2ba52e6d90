/**
 * Single bits of unsigned values, on their binary representation: bit m of b is
 * what is left modulo 2 after m halvings, and setting bit n (`b | 1u << n`)
 * adds 2^n when that bit is clear.
 */
module Bits {

  function Pow2(k: nat): (p: nat)
    ensures 0 < p
  {
    if k == 0 then 1 else 2 * Pow2(k - 1)
  }

  /** 2^32, the size of the range of a C `unsigned`. */
  lemma Pow2Word()
    ensures Pow2(32) == 0x1_0000_0000
  {
    assert Pow2(8) == 0x100;
    assert Pow2(16) == 0x1_0000;
    assert Pow2(24) == 0x100_0000;
  }

  /** `b & (1u << m)`, read as a truth value. */
  predicate BitAt(b: nat, m: nat): (isSet: bool)
    decreases m
    ensures isSet ==> Pow2(m) <= b
  {
    if m == 0 then b % 2 == 1 else BitAt(b / 2, m - 1)
  }

  /** `b | (1u << n)`. */
  function SetBit(b: nat, n: nat): (r: nat)
    decreases n
    ensures BitAt(r, n)
    ensures b <= r
  {
    if n == 0 then (if b % 2 == 1 then b else b + 1)
    else 2 * SetBit(b / 2, n - 1) + b % 2
  }

  lemma NoBitInZero(m: nat)
    ensures !BitAt(0, m)
  {
  }

  /** Setting bit n leaves every other bit as it was. */
  lemma {:induction false} SetBitKeeps(b: nat, n: nat, m: nat)
    requires n != m
    ensures BitAt(SetBit(b, n), m) <==> BitAt(b, m)
    decreases n
  {
    var r := SetBit(b, n);
    if n == 0 {
      if b % 2 == 0 {
        assert r / 2 == b / 2;
      }
    } else if m == 0 {
      assert r % 2 == b % 2;
    } else {
      SetBitKeeps(b / 2, n - 1, m - 1);
      assert r / 2 == SetBit(b / 2, n - 1);
    }
  }

  /** Setting a bit that is already set changes nothing. */
  lemma {:induction false} SetBitWhenSet(b: nat, n: nat)
    requires BitAt(b, n)
    ensures SetBit(b, n) == b
    decreases n
  {
    if n > 0 {
      SetBitWhenSet(b / 2, n - 1);
    }
  }

  /** Setting the same bit twice is setting it once. */
  lemma SetBitTwice(b: nat, n: nat)
    ensures SetBit(SetBit(b, n), n) == SetBit(b, n)
  {
    SetBitWhenSet(SetBit(b, n), n);
  }

  /** A value below 2^w has no bit at w or above. */
  lemma {:induction false} NoBitAbove(b: nat, w: nat, m: nat)
    requires b < Pow2(w) && w <= m
    ensures !BitAt(b, m)
    decreases m
  {
    if w == 0 {
      NoBitInZero(m);
    } else {
      NoBitAbove(b / 2, w - 1, m - 1);
    }
  }

  /** Setting a bit below position w keeps a value below 2^w. */
  lemma {:induction false} SetBitBelow(b: nat, n: nat, w: nat)
    requires b < Pow2(w) && n < w
    ensures SetBit(b, n) < Pow2(w)
    decreases n
  {
    if n == 0 {
      if b % 2 == 0 {
        assert b + 1 < Pow2(w);
      }
    } else {
      SetBitBelow(b / 2, n - 1, w - 1);
    }
  }

  /**
   * The word whose bit n is set exactly when flag n is true: the flags but the last
   * packed, with the last position's bit set when that flag is true.
   */
  function Pack(flags: seq<bool>): (r: nat)
    ensures r < Pow2(|flags|)
  {
    if flags == [] then 0
    else
      var n := |flags| - 1;
      var rest := Pack(flags[..n]);
      if flags[n] then
        SetBitBelow(rest, n, |flags|);
        SetBit(rest, n)
      else rest
  }

  /** Bit m of a packed word is flag m, and no bit beyond the flags is set. */
  lemma {:induction false} PackBits(flags: seq<bool>, m: nat)
    ensures BitAt(Pack(flags), m) <==> m < |flags| && flags[m]
  {
    if flags == [] {
      NoBitInZero(m);
    } else {
      var n := |flags| - 1;
      var rest := Pack(flags[..n]);
      PackBits(flags[..n], m);
      if m >= |flags| {
        NoBitAbove(Pack(flags), |flags|, m);
      } else if flags[n] && m != n {
        SetBitKeeps(rest, n, m);
      }
    }
  }

  /** With no flag true, the packed word is zero. */
  lemma {:induction false} PackNone(flags: seq<bool>)
    requires forall m :: 0 <= m < |flags| ==> !flags[m]
    ensures Pack(flags) == 0
  {
    if flags != [] {
      PackNone(flags[..|flags| - 1]);
    }
  }

  // On 32-bit vectors, testing and setting bit m with `&` and `|` follow the same
  // recursion on m as BitAt and SetBit: bit 0 is the remainder mod 2, bit m + 1 is
  // bit m of the halved value.

  lemma AndLowBit(x: bv32)
    ensures x & (1 << 0) != 0 <==> x % 2 == 1
  {
  }

  lemma AndHigherBit(x: bv32, m: bv32)
    requires m < 31
    ensures x & (1 << (m + 1)) != 0 <==> (x / 2) & (1 << m) != 0
  {
  }

  lemma OrLowBit(x: bv32)
    ensures x | (1 << 0) == if x % 2 == 1 then x else x + 1
  {
  }

  lemma OrHigherBit(x: bv32, m: bv32)
    requires m < 31
    ensures x | (1 << (m + 1)) == 2 * ((x / 2) | (1 << m)) + x % 2
  {
  }
}
