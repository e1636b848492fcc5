/** The two places where the fixed codes of section 3.2.6 of RFC 1951 lack a codeword, as the decoder builds them. */
module FixedGaps {
  import opened Arith
  import opened Collections
  import opened Huffman
  import opened HuffmanComplete
  import opened HuffmanConverse
  import opened InflateSpec
  import opened ZlibRoundTrip

  // What the codewords of 286 and 287, and those of the distances 30 and 31, have in common.
  const LENGTH_GAP: seq<bool> := [true, true, false, false, false, true, true]
  const DISTANCE_GAP: seq<bool> := [true, true, true, true]

  // The words in question, from the top bit down.
  lemma LengthGapBits()
    ensures CodeBits(98, 7) == LENGTH_GAP[..6] + [false] && CodeBits(99, 7) == LENGTH_GAP
  {
    hide CodeBits;
    LastBit(0, 0);
    LastBit(1, 1);
    LastBit(3, 2);
    LastBit(6, 3);
    LastBit(12, 4);
    LastBit(24, 5);
    LastBit(49, 6);
    LastBit(98, 7);
    LastBit(99, 7);
  }

  lemma DistanceGapBits()
    ensures CodeBits(14, 4) == DISTANCE_GAP[..3] + [false] && CodeBits(15, 4) == DISTANCE_GAP
  {
    hide CodeBits;
    LastBit(0, 0);
    LastBit(1, 1);
    LastBit(3, 2);
    LastBit(7, 3);
    LastBit(14, 4);
    LastBit(15, 4);
  }

  lemma LengthCodes()
    ensures CodeBits(196, 8) == LENGTH_GAP[..6] + [false, false]
    ensures CodeBits(198, 8) == LENGTH_GAP + [false] && CodeBits(199, 8) == LENGTH_GAP + [true]
  {
    hide CodeBits;
    LengthGapBits();
    LastBit(196, 8);
    LastBit(198, 8);
    LastBit(199, 8);
  }

  lemma DistanceCodes()
    ensures CodeBits(15, 4) == DISTANCE_GAP && CodeBits(28, 5) == DISTANCE_GAP[..3] + [false, false]
    ensures CodeBits(30, 5) == DISTANCE_GAP + [false] && CodeBits(31, 5) == DISTANCE_GAP + [true]
  {
    hide CodeBits;
    DistanceGapBits();
    LastBit(28, 5);
    LastBit(30, 5);
    LastBit(31, 5);
  }

  lemma LastBit(x: nat, n: nat)
    ensures CodeBits(x, n) == if n == 0 then [] else CodeBits(x / 2, n - 1) + [x % 2 == 1]
  {
  }

  lemma {:induction false} CountRepeat(bl: seq<nat>, l: nat, n: nat, x: nat)
    ensures Count(bl + Repeat(l, n), x) == Count(bl, x) + if l == x then n else 0
    decreases n
  {
    if n == 0 {
      assert bl + Repeat(l, 0) == bl;
    } else {
      CountRepeat(bl, l, n - 1, x);
      var longer := bl + Repeat(l, n);
      assert longer[..|longer| - 1] == bl + Repeat(l, n - 1);
    }
  }

  // ----- Literals and lengths

  function Front(n: nat): seq<nat> {
    Repeat(8, 144) + Repeat(9, 112) + Repeat(7, 24) + Repeat(8, n)
  }

  lemma FrontCounts(n: nat, x: nat)
    ensures Count(Front(n), x)
         == if x == 7 then 24 else if x == 8 then 144 + n else if x == 9 then 112 else 0
  {
    hide Repeat;
    var a, b, c := Repeat<nat>(8, 144), Repeat<nat>(9, 112), Repeat<nat>(7, 24);
    assert [] + a == a && Count([], x) == 0;
    CountRepeat([], 8, 144, x);
    CountRepeat(a, 9, 112, x);
    CountRepeat(a + b, 7, 24, x);
    CountRepeat(a + b + c, 8, n, x);
  }

  lemma FirstEight()
    ensures FirstCode(FixedLengths(), 8) == 48
  {
    var bl := FixedLengths();
    assert bl == Front(8);
    FrontCounts(8, 1);
    FrontCounts(8, 2);
    FrontCounts(8, 3);
    FrontCounts(8, 4);
    FrontCounts(8, 5);
    FrontCounts(8, 6);
    FrontCounts(8, 7);
    hide Count, Front, FixedLengths;
    assert FirstCode(bl, 2) == 0 && FirstCode(bl, 3) == 0;
    assert FirstCode(bl, 4) == 0 && FirstCode(bl, 5) == 0;
    assert FirstCode(bl, 6) == 0 && FirstCode(bl, 7) == 0;
  }

  // The last eight codewords.
  lemma LastCodes(i: nat)
    requires 280 <= i < 288
    ensures FixedLengths()[i] == 8 && Codeword(FixedLengths(), i) == CodeBits(i - 88, 8)
  {
    assert FixedLengths()[..i] == Front(i - 280);
    FrontCounts(i - 280, 8);
    FirstEight();
    hide Count, FirstCode, CodeBits;
  }

  lemma FixedLengthsSize(i: nat)
    ensures |FixedLengths()| == 288
    ensures i < 288 ==> 7 <= FixedLengths()[i] <= 9
    ensures Coded(FixedLengths(), Alphabet(288), i) <==> i < 288
    ensures Coded(FixedLengths(), LITERAL_ALPHABET, i) <==> i < 286
  {
  }

  // With all its 288 symbols the code is complete.
  lemma FixedComplete()
    ensures Complete(FixedLengths(), Alphabet(288))
  {
    FixedKraft();
    FixedLengthsSize(0);
    assert FixedLengths()[..288] == FixedLengths();
    hide FixedLengths, KraftSum, Kraft, Complete, BuildTree, Walk;
    KraftNeverPanics(FixedLengths(), Alphabet(288), 9);
    NeverPanics(FixedLengths(), Alphabet(288));
  }

  lemma LeadsWith(bl: seq<nat>, alphabet: seq<nat>, i: nat, path: seq<bool>)
    requires Coded(bl, alphabet, i) && path <= Codeword(bl, i)
    ensures Leads(bl, alphabet, |bl|, path)
  {
    hide Codeword;
  }

  // Two symbols do not start with each other's codeword.
  lemma NoPrefix(i: nat, j: nat)
    requires i < 288 && j < 288 && i != j
    ensures !(Codeword(FixedLengths(), i) <= Codeword(FixedLengths(), j))
  {
    FixedKraft();
    FixedLengthsSize(i);
    FixedLengthsSize(j);
    hide FixedLengths, Kraft, KraftSum, Codeword;
    PrefixFree(FixedLengths(), 9, i, j);
    DivergeIsNoPrefix(Codeword(FixedLengths(), i), Codeword(FixedLengths(), j));
  }

  // Of the coded symbols none starts with the gap.
  lemma GapStartsNone(i: nat)
    requires i < 286
    ensures !(LENGTH_GAP <= Codeword(FixedLengths(), i))
  {
    hide FixedLengths, Codeword, CodeBits;
    LengthCodes();
    FixedLengthsSize(i);
    LastCodes(286);
    LastCodes(287);
    NoPrefix(i, 286);
    NoPrefix(286, i);
    NoPrefix(287, i);
    PrefixGrows(LENGTH_GAP, Codeword(FixedLengths(), i));
  }

  lemma PrefixGrows(start: seq<bool>, code: seq<bool>)
    ensures start <= code ==> code == start || start + [false] <= code || start + [true] <= code
  {
    if start < code {
      assert code[..|start| + 1] == start + [code[|start|]];
      if code[|start|] {
        assert start + [true] <= code;
      } else {
        assert start + [false] <= code;
      }
    }
  }

  // A start of a word and one more bit is that word, the word without its last bit, or a start of the word
  // shortened by two.
  lemma ShortStart(gap: seq<bool>, b: bool, code: seq<bool>)
    requires gap != [] && code <= gap + [b]
    ensures code == gap || code == gap + [b] || code <= gap[..|gap| - 1]
  {
    if |code| <= |gap| {
      assert code == gap[..|code|];
    }
  }

  // The sibling of a path to a coded symbol starts some codeword, if only a reserved one.
  lemma SiblingLeads(code: seq<bool>) returns (j: nat)
    requires code != [] && Leads(FixedLengths(), LITERAL_ALPHABET, 288, Turned(code)) && |FixedLengths()| == 288
    ensures j < 288 && code <= Codeword(FixedLengths(), j)
  {
    FixedComplete();
    hide FixedLengths, Codeword, Parted;
    var ll := FixedLengths();
    var i :| 0 <= i < 288 && Coded(ll, LITERAL_ALPHABET, i) && Turned(code) <= Codeword(ll, i);
    FixedLengthsSize(i);
    j := TurnedParts(ll, Alphabet(288), i, code);
  }

  lemma TurnedParts(bl: seq<nat>, alphabet: seq<nat>, i: nat, code: seq<bool>) returns (j: nat)
    requires Complete(bl, alphabet) && Coded(bl, alphabet, i) && code != [] && Turned(code) <= Codeword(bl, i)
    ensures j < |bl| && Coded(bl, alphabet, j) && code <= Codeword(bl, j)
  {
    var k, word := |code| - 1, Codeword(bl, i);
    assert word[..k] == Turned(code)[..k] == code[..k] && word[k] == Turned(code)[k] == !code[k];
    assert code == code[..k] + [code[k]];
    assert Parted(bl, alphabet, i, k);
    hide Codeword;
    j :| 0 <= j < |bl| && Coded(bl, alphabet, j) && word[..k] + [!word[k]] <= Codeword(bl, j);
  }

  lemma LengthGapIff(code: seq<bool>)
    ensures Gap(FixedLengths(), LITERAL_ALPHABET, code) <==> code == LENGTH_GAP
  {
    hide FixedLengths, Codeword, Leads, CodeBits;
    FixedLengthsSize(284);
    if code == LENGTH_GAP {
      LengthGapIsGap();
    }
    if Gap(FixedLengths(), LITERAL_ALPHABET, code) {
      LengthGapOnly(code);
    }
  }

  lemma LengthGapIsGap()
    ensures Gap(FixedLengths(), LITERAL_ALPHABET, LENGTH_GAP)
  {
    hide FixedLengths, Codeword, CodeBits;
    LengthCodes();
    LastCodes(284);
    FixedLengthsSize(284);
    assert Turned(LENGTH_GAP) == LENGTH_GAP[..6] + [false];
    LeadsWith(FixedLengths(), LITERAL_ALPHABET, 284, Turned(LENGTH_GAP));
    forall i: nat | Coded(FixedLengths(), LITERAL_ALPHABET, i) ensures !(LENGTH_GAP <= Codeword(FixedLengths(), i)) {
      FixedLengthsSize(i);
      GapStartsNone(i);
    }
  }

  lemma LengthGapOnly(code: seq<bool>)
    requires Gap(FixedLengths(), LITERAL_ALPHABET, code)
    ensures code == LENGTH_GAP
  {
    hide FixedLengths, Codeword, CodeBits, Leads;
    FixedLengthsSize(284);
    var j := SiblingLeads(code);
    FixedLengthsSize(j);
    if j < 286 {
      LeadsWith(FixedLengths(), LITERAL_ALPHABET, j, code);
    }
    LengthCodes();
    LastCodes(j);
    LastCodes(284);
    ShortStart(LENGTH_GAP, j == 287, code);
    if code <= LENGTH_GAP[..6] {
      LeadsWith(FixedLengths(), LITERAL_ALPHABET, 284, code);
    }
    if code == Codeword(FixedLengths(), j) {
      WholeReserved(code, j);
    }
  }

  // A reserved codeword turned over at its end is the other one, and no coded symbol starts with that.
  lemma WholeReserved(code: seq<bool>, j: nat)
    requires 286 <= j < 288 && code == Codeword(FixedLengths(), j)
    ensures !Gap(FixedLengths(), LITERAL_ALPHABET, code)
  {
    hide FixedLengths, Codeword, CodeBits;
    LengthCodes();
    var other := 286 + 287 - j;
    FixedLengthsSize(j);
    LastCodes(j);
    LastCodes(other);
    assert Turned(code) == Codeword(FixedLengths(), other);
    forall i: nat | Coded(FixedLengths(), LITERAL_ALPHABET, i) ensures !(Turned(code) <= Codeword(FixedLengths(), i)) {
      FixedLengthsSize(i);
      NoPrefix(other, i);
    }
  }

  // ----- Distances

  // With n five-bit codewords, that of i is i in five bits.
  lemma FivesCode(n: nat, i: nat)
    requires i < n
    ensures Codeword(Repeat(5, n), i) == CodeBits(i, 5)
  {
    var bl := Repeat<nat>(5, n);
    assert bl[..i] == Repeat<nat>(5, i) && [] + bl == bl && [] + Repeat<nat>(5, i) == Repeat<nat>(5, i);
    CountRepeat([], 5, i, 5);
    CountRepeat([], 5, n, 1);
    CountRepeat([], 5, n, 2);
    CountRepeat([], 5, n, 3);
    CountRepeat([], 5, n, 4);
    assert Count([], 5) == 0 && Count(bl, 1) == 0 && Count(bl, 2) == 0 && Count(bl, 3) == 0 && Count(bl, 4) == 0;
    hide Count, CodeBits;
    assert FirstCode(bl, 2) == 0 && FirstCode(bl, 3) == 0 && FirstCode(bl, 4) == 0 && FirstCode(bl, 5) == 0;
  }

  lemma FivesComplete()
    ensures Complete(Repeat(5, 32), Alphabet(32))
  {
    var bl := Repeat<nat>(5, 32);
    assert [] + bl == bl && bl[..32] == bl && Pow2(5) == 32 && Pow2(0) == 1;
    assert KraftSum([], 5) == 0;
    KraftRepeat([], 5, 32, 5);
    hide Complete, BuildTree, Walk, KraftSum, Repeat;
    KraftNeverPanics(bl, Alphabet(32), 5);
    NeverPanics(bl, Alphabet(32));
  }

  lemma FivesCoded(i: nat)
    ensures Coded(FIXED_DISTANCES, DISTANCE_ALPHABET, i) <==> i < 30
    ensures Coded(Repeat(5, 32), Alphabet(32), i) <==> i < 32
    ensures |FIXED_DISTANCES| == 30 && |Repeat<nat>(5, 32)| == 32
  {
  }

  lemma DistanceGapIsGap()
    ensures Gap(FIXED_DISTANCES, DISTANCE_ALPHABET, DISTANCE_GAP)
  {
    hide Codeword, CodeBits, Repeat;
    DistanceCodes();
    FivesCoded(28);
    FivesCode(30, 28);
    assert Turned(DISTANCE_GAP) == DISTANCE_GAP[..3] + [false];
    LeadsWith(FIXED_DISTANCES, DISTANCE_ALPHABET, 28, Turned(DISTANCE_GAP));
    forall i: nat | Coded(FIXED_DISTANCES, DISTANCE_ALPHABET, i)
      ensures !(DISTANCE_GAP <= Codeword(FIXED_DISTANCES, i))
    {
      FivesCoded(i);
      FivesCode(30, i);
      BelowThirty(i);
    }
  }

  lemma BelowThirty(i: nat)
    requires i < 30
    ensures !(DISTANCE_GAP <= CodeBits(i, 5)) && CodeBits(i, 5) != CodeBits(30, 5) && CodeBits(i, 5) != CodeBits(31, 5)
  {
    DistanceCodes();
    assert CodeBits(i, 5)[..4] == CodeBits(i / 2, 4);
    assert Pow2(4) == 16;
    hide CodeBits;
    if CodeBits(i / 2, 4) == CodeBits(15, 4) {
      CodeBitsInjective(i / 2, 15, 4);
    }
  }

  lemma DistanceGapOnly(code: seq<bool>)
    requires Gap(FIXED_DISTANCES, DISTANCE_ALPHABET, code)
    ensures code == DISTANCE_GAP
  {
    hide Codeword, CodeBits, Repeat, Alphabet, Turned;
    FivesCoded(28);
    var i := LeadsTo(FIXED_DISTANCES, DISTANCE_ALPHABET, Turned(code));
    FivesCoded(i);
    FivesCode(30, i);
    FivesCode(32, i);
    FivesComplete();
    var j := TurnedParts(Repeat(5, 32), Alphabet(32), i, code);
    FivesCoded(j);
    FivesCode(32, j);
    DistanceCodes();
    DistanceStart(code, j, i);
  }

  lemma LeadsTo(bl: seq<nat>, alphabet: seq<nat>, path: seq<bool>) returns (i: nat)
    requires Leads(bl, alphabet, |bl|, path)
    ensures i < |bl| && Coded(bl, alphabet, i) && path <= Codeword(bl, i)
  {
    hide Codeword, Coded;
    i :| 0 <= i < |bl| && Coded(bl, alphabet, i) && path <= Codeword(bl, i);
  }

  lemma DistanceStart(code: seq<bool>, j: nat, i: nat)
    requires j < 32 && i < 30 && code != [] && code <= CodeBits(j, 5) && Turned(code) <= CodeBits(i, 5)
    requires !Leads(FIXED_DISTANCES, DISTANCE_ALPHABET, 30, code) && |FIXED_DISTANCES| == 30
    ensures code == DISTANCE_GAP
  {
    hide Codeword, CodeBits, Repeat, Alphabet, Leads;
    DistanceCodes();
    NotLeading(j, code);
    ShortStart(DISTANCE_GAP, j == 31, code);
    ShortLeads(code);
    WholeTurned(code, j, i);
  }

  lemma NotLeading(j: nat, code: seq<bool>)
    requires j < 32 && code <= CodeBits(j, 5) && |FIXED_DISTANCES| == 30
    ensures j < 30 ==> Leads(FIXED_DISTANCES, DISTANCE_ALPHABET, 30, code)
  {
    hide Codeword, CodeBits, Repeat, Alphabet, Leads;
    FivesCoded(j);
    if j < 30 {
      FivesCode(30, j);
      LeadsWith(FIXED_DISTANCES, DISTANCE_ALPHABET, j, code);
    }
  }

  lemma ShortLeads(code: seq<bool>)
    requires |FIXED_DISTANCES| == 30
    ensures code <= DISTANCE_GAP[..3] ==> Leads(FIXED_DISTANCES, DISTANCE_ALPHABET, 30, code)
  {
    hide Codeword, CodeBits, Repeat, Alphabet, Leads;
    DistanceCodes();
    FivesCoded(28);
    FivesCode(30, 28);
    if code <= DISTANCE_GAP[..3] {
      LeadsWith(FIXED_DISTANCES, DISTANCE_ALPHABET, 28, code);
    }
  }

  lemma TurnedReserved(j: nat)
    requires 30 <= j < 32
    ensures Turned(CodeBits(j, 5)) == CodeBits(30 + 31 - j, 5)
  {
    DistanceCodes();
    hide CodeBits;
  }

  lemma SameLength(a: seq<bool>, b: seq<bool>)
    ensures |a| == |b| && a <= b ==> a == b
  {
  }

  lemma WholeTurned(code: seq<bool>, j: nat, i: nat)
    requires 30 <= j < 32 && i < 30 && code != [] && Turned(code) <= CodeBits(i, 5)
    ensures code != CodeBits(j, 5)
  {
    BelowThirty(i);
    TurnedReserved(j);
    SameLength(Turned(code), CodeBits(i, 5));
    hide CodeBits;
  }

  lemma DistanceGapIff(code: seq<bool>)
    ensures Gap(FIXED_DISTANCES, DISTANCE_ALPHABET, code) <==> code == DISTANCE_GAP
  {
    hide Gap;
    if code == DISTANCE_GAP {
      DistanceGapIsGap();
    }
    if Gap(FIXED_DISTANCES, DISTANCE_ALPHABET, code) {
      DistanceGapOnly(code);
    }
  }
}
