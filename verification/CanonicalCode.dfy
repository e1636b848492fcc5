/** What the canonical codewords are: each starts where the code space of its predecessors ends. */
module CanonicalCode {
  import opened Arith
  import opened Huffman

  // ----- Numerals

  // v in n bits, the highest first.
  function Numeral(v: nat, n: nat): (word: seq<bool>)
    ensures |word| == n
  {
    seq(n, k requires 0 <= k < n => (v / Pow2(n - 1 - k)) % 2 == 1)
  }

  lemma {:induction false} CodeBitsNumeral(v: nat, n: nat)
    ensures CodeBits(v, n) == Numeral(v, n)
  {
    if n != 0 {
      CodeBitsNumeral(v / 2, n - 1);
      assert Pow2(0) == 1 && v / 1 == v;
      forall k | 0 <= k < n - 1 ensures Numeral(v, n)[k] == Numeral(v / 2, n - 1)[k] {
        assert Pow2(n - 1 - k) == 2 * Pow2(n - 2 - k);
        DivDiv(v, 2, Pow2(n - 2 - k));
      }
    }
  }

  // ----- Code space

  // Index i comes before s: its codeword is shorter, or equally long and i is the smaller index.
  predicate Precedes(bl: seq<nat>, i: nat, s: nat)
    requires i < |bl| && s < |bl|
  {
    bl[i] != 0 && (bl[i] < bl[s] || (bl[i] == bl[s] && i < s))
  }

  // 2^m times the code space that the indices below n that precede s take.
  function RoomBefore(bl: seq<nat>, s: nat, n: nat, m: nat): nat
    requires AtMost(bl, m) && s < |bl| && n <= |bl|
  {
    if n == 0 then 0
    else RoomBefore(bl, s, n - 1, m) + if Precedes(bl, n - 1, s) then Pow2(m - bl[n - 1]) else 0
  }

  // The same for the lengths below l.
  function RoomBelow(bl: seq<nat>, l: nat, n: nat, m: nat): nat
    requires AtMost(bl, m) && n <= |bl|
  {
    if n == 0 then 0
    else RoomBelow(bl, l, n - 1, m) + if 0 < bl[n - 1] < l then Pow2(m - bl[n - 1]) else 0
  }

  lemma CountNext(bl: seq<nat>, n: nat, l: nat)
    requires n < |bl|
    ensures Count(bl[..n + 1], l) == Count(bl[..n], l) + if bl[n] == l then 1 else 0
  {
    assert bl[..n + 1][..n] == bl[..n];
  }

  lemma OneMoreTime(k: nat, x: nat)
    ensures (k + 1) * x == k * x + x
  {
  }

  lemma {:induction false} RoomBelowNext(bl: seq<nat>, l: nat, n: nat, m: nat)
    requires AtMost(bl, m) && n <= |bl| && 1 <= l <= m
    ensures RoomBelow(bl, l + 1, n, m) == RoomBelow(bl, l, n, m) + Count(bl[..n], l) * Pow2(m - l)
  {
    if n != 0 {
      RoomBelowNext(bl, l, n - 1, m);
      CountNext(bl, n - 1, l);
      OneMoreTime(Count(bl[..n - 1], l), Pow2(m - l));
      hide Pow2, Count;
    }
  }

  lemma {:induction false} NoRoomBelowOne(bl: seq<nat>, n: nat, m: nat)
    requires AtMost(bl, m) && n <= |bl|
    ensures RoomBelow(bl, 1, n, m) == 0
  {
    if n != 0 {
      NoRoomBelowOne(bl, n - 1, m);
    }
  }

  lemma Double(a: nat, b: nat, x: nat)
    ensures (2 * (a + b)) * x == a * (2 * x) + b * (2 * x)
  {
  }

  // The first codeword of a length starts where the shorter ones end.
  lemma {:induction false} FirstCodeRoom(bl: seq<nat>, l: nat, m: nat)
    requires AtMost(bl, m) && 1 <= l <= m
    ensures FirstCode(bl, l) * Pow2(m - l) == RoomBelow(bl, l, |bl|, m)
  {
    if l == 1 {
      NoRoomBelowOne(bl, |bl|, m);
    } else {
      FirstCodeRoom(bl, l - 1, m);
      RoomBelowNext(bl, l - 1, |bl|, m);
      assert bl[..|bl|] == bl;
      Double(FirstCode(bl, l - 1), Count(bl, l - 1), Pow2(m - l));
      assert Pow2(m - (l - 1)) == 2 * Pow2(m - l);
      hide Pow2, Count, RoomBelow;
    }
  }

  lemma {:induction false} RoomParts(bl: seq<nat>, s: nat, n: nat, m: nat)
    requires AtMost(bl, m) && s < |bl| && n <= |bl| && bl[s] != 0
    ensures RoomBefore(bl, s, n, m)
         == RoomBelow(bl, bl[s], n, m) + Count(bl[..if n < s then n else s], bl[s]) * Pow2(m - bl[s])
  {
    if n != 0 {
      RoomParts(bl, s, n - 1, m);
      if n <= s {
        CountNext(bl, n - 1, bl[s]);
        OneMoreTime(Count(bl[..n - 1], bl[s]), Pow2(m - bl[s]));
      }
      hide Pow2, Count;
    }
  }

  // As a binary fraction every codeword is the code space of all that precede it (section 3.2.2 of RFC 1951): shorter
  // codewords come first, equally long ones in the order of their symbols, and no space is left between them.
  lemma CodeIsRoomBefore(bl: seq<nat>, s: nat, m: nat)
    requires AtMost(bl, m) && s < |bl| && bl[s] != 0
    ensures Codeword(bl, s) == Numeral(Code(bl, s), bl[s])
    ensures Code(bl, s) * Pow2(m - bl[s]) == RoomBefore(bl, s, |bl|, m)
  {
    CodeBitsNumeral(Code(bl, s), bl[s]);
    FirstCodeRoom(bl, bl[s], m);
    RoomParts(bl, s, |bl|, m);
    Split(FirstCode(bl, bl[s]), Count(bl[..s], bl[s]), Pow2(m - bl[s]));
    hide Pow2, Count, FirstCode, RoomBelow, RoomBefore;
  }

  lemma Split(a: nat, b: nat, x: nat)
    ensures (a + b) * x == a * x + b * x
  {
  }
}
