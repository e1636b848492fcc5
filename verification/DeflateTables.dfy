/** The length and distance tables of section 3.2.5 of RFC 1951 leave no gap. */
module DeflateTables {
  import opened Arith
  import opened DeflateEncoder
  import opened InflateSpec

  lemma SmallPowers()
    ensures Pow2(0) == 1 && Pow2(1) == 2 && Pow2(2) == 4 && Pow2(3) == 8 && Pow2(4) == 16 && Pow2(5) == 32
    ensures Pow2(6) == 64 && Pow2(7) == 128 && Pow2(8) == 256 && Pow2(9) == 512 && Pow2(10) == 1024
    ensures Pow2(11) == 2048 && Pow2(12) == 4096 && Pow2(13) == 8192
  {
    assert Pow2(4) == 16;
    Pow2Add(4, 4);
    Pow2Add(4, 8);
  }

  // The numbers of extra bits and the first lengths, in closed form.
  lemma LengthTable(k: nat)
    requires k < LENGTH_SYMBOLS
    ensures LengthExtra(k) == if k < 8 || k == 28 then 0 else k / 4 - 1
    ensures LengthBase(k) == if k < 8 then 3 + k else if k == 28 then 258 else 3 + (4 + k % 4) * Pow2(k / 4 - 1)
  {
    SmallPowers();
    hide Pow2;
    if k < 16 {
    } else if k < 24 {
    }
  }

  lemma DistanceTable(d: nat)
    requires d < DISTANCE_SYMBOLS
    ensures DistanceExtra(d) == if d < 2 then 0 else d / 2 - 1
    ensures DistanceBase(d) == if d < 2 then d + 1 else 1 + (2 + d % 2) * Pow2(d / 2 - 1)
  {
    SmallPowers();
    hide Pow2;
    if d < 10 {
    } else if d < 20 {
    }
  }

  // The code length lengths come in this order: the runs, then outwards from 8 with 0 in front.
  lemma OrderTable(i: nat)
    requires i < 19
    ensures OrderAt(i)
         == if i < 3 then 16 + i else if i == 3 then 0 else if i % 2 == 0 then 6 + i / 2 else 9 - (i - 1) / 2
  {
    if i < 10 {
    }
  }

  // Every range of lengths starts where the one before ends; only 258 can be written in two ways.
  lemma LengthStep(k: nat)
    requires k + 1 < LENGTH_SYMBOLS
    ensures LengthBase(k + 1) == LengthBase(k) + Pow2(LengthExtra(k)) - if k == 27 then 1 else 0
  {
    SmallPowers();
    hide Pow2;
  }

  lemma DistanceStep(d: nat)
    requires d + 1 < DISTANCE_SYMBOLS
    ensures DistanceBase(d + 1) == DistanceBase(d) + Pow2(DistanceExtra(d))
  {
    SmallPowers();
    hide Pow2;
  }

  // The symbol, from k on, whose range holds the length.
  lemma {:induction false} LengthFrom(length: nat, k: nat) returns (symbol: nat, extra: nat)
    requires k < LENGTH_SYMBOLS && LengthBase(k) <= length <= 258
    ensures symbol < LENGTH_SYMBOLS && extra < Pow2(LengthExtra(symbol)) && LengthBase(symbol) + extra == length
    decreases LENGTH_SYMBOLS - k
  {
    if length < LengthBase(k) + Pow2(LengthExtra(k)) {
      return k, length - LengthBase(k);
    }
    assert LengthBase(28) == 258 && Pow2(LengthExtra(28)) == 1;
    hide LengthBase, LengthExtra, Pow2;
    LengthStep(k);
    symbol, extra := LengthFrom(length, k + 1);
  }

  lemma {:induction false} DistanceFrom(distance: nat, d: nat) returns (symbol: nat, more: nat)
    requires d < DISTANCE_SYMBOLS && DistanceBase(d) <= distance <= 32768
    ensures symbol < DISTANCE_SYMBOLS && more < Pow2(DistanceExtra(symbol)) && DistanceBase(symbol) + more == distance
    decreases DISTANCE_SYMBOLS - d
  {
    if distance < DistanceBase(d) + Pow2(DistanceExtra(d)) {
      return d, distance - DistanceBase(d);
    }
    SmallPowers();
    assert DistanceBase(29) == 24577 && Pow2(DistanceExtra(29)) == 8192;
    hide DistanceBase, DistanceExtra, Pow2;
    DistanceStep(d);
    symbol, more := DistanceFrom(distance, d + 1);
  }

  // Every match that LZ77 allows has symbols, and the fixed codes have codewords for them.
  lemma EveryMatch(length: nat, distance: nat) returns (token: Token)
    requires 3 <= length <= 258 && 1 <= distance <= 32768
    ensures token.Match? && token.Encodable(FixedLengths(), FIXED_DISTANCES)
    ensures token.Length() == length && token.Distance() == distance
  {
    assert LengthBase(0) == 3 && DistanceBase(0) == 1;
    hide LengthBase, LengthExtra, DistanceBase, DistanceExtra, Pow2;
    var k, extra := LengthFrom(length, 0);
    var d, more := DistanceFrom(distance, 0);
    token := Match(k, extra, d, more);
  }
}
