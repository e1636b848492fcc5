/** The fixed codes as section 3.2.6 of RFC 1951 tabulates them, at the decoder. */
module FixedTable {
  import opened Arith
  import opened BitStream
  import opened CanonicalCode
  import opened Collections
  import opened DeflateEncoder
  import opened FixedGaps
  import opened Huffman
  import opened InflateSpec
  import opened ZlibRoundTrip

  // The codeword of a literal or length symbol.
  function LiteralWord(s: nat): seq<bool>
    requires s < 286
  {
    if s < 144 then Numeral(48 + s, 8)
    else if s < 256 then Numeral(400 + (s - 144), 9)
    else if s < 280 then Numeral(s - 256, 7)
    else Numeral(192 + (s - 280), 8)
  }

  lemma FirstNine()
    ensures FirstCode(FixedLengths(), 7) == 0 && FirstCode(FixedLengths(), 9) == 400
  {
    var bl := FixedLengths();
    assert bl == Front(8);
    FrontCounts(8, 1);
    FrontCounts(8, 2);
    FrontCounts(8, 3);
    FrontCounts(8, 4);
    FrontCounts(8, 5);
    FrontCounts(8, 6);
    FrontCounts(8, 8);
    FirstEight();
    hide Count, Front, FixedLengths;
    assert FirstCode(bl, 2) == 0 && FirstCode(bl, 3) == 0;
    assert FirstCode(bl, 4) == 0 && FirstCode(bl, 5) == 0;
    assert FirstCode(bl, 6) == 0 && FirstCode(bl, 7) == 0;
  }

  // The symbols below s, run by run.
  lemma StartOfLengths(s: nat)
    requires s < 280
    ensures |FixedLengths()| == 288
    ensures s < 144 ==> FixedLengths()[s] == 8 && FixedLengths()[..s] == [] + Repeat<nat>(8, s)
    ensures 144 <= s < 256 ==>
              FixedLengths()[s] == 9 && FixedLengths()[..s] == [] + Repeat<nat>(8, 144) + Repeat<nat>(9, s - 144)
    ensures 256 <= s ==>
              && FixedLengths()[s] == 7
              && FixedLengths()[..s] == [] + Repeat<nat>(8, 144) + Repeat<nat>(9, 112) + Repeat<nat>(7, s - 256)
  {
  }

  lemma CountBefore(s: nat)
    requires s < 280
    ensures s < |FixedLengths()|
    ensures Count(FixedLengths()[..s], FixedLengths()[s])
         == if s < 144 then s else if s < 256 then s - 144 else s - 256
  {
    StartOfLengths(s);
    var l := FixedLengths()[s];
    var none: seq<nat> := [];
    assert Count(none, l) == 0;
    hide FixedLengths, Repeat;
    if s < 144 {
      CountRepeat(none, 8, s, l);
    } else {
      CountRepeat(none, 8, 144, l);
      var eights := none + Repeat<nat>(8, 144);
      if s < 256 {
        CountRepeat(eights, 9, s - 144, l);
      } else {
        CountRepeat(eights, 9, 112, l);
        CountRepeat(eights + Repeat<nat>(9, 112), 7, s - 256, l);
      }
    }
  }

  lemma FixedCodeword(s: nat)
    requires s < 286
    ensures s < |FixedLengths()| && Codeword(FixedLengths(), s) == LiteralWord(s)
  {
    FixedLengthsSize(s);
    if s < 280 {
      CountBefore(s);
      StartOfLengths(s);
      FirstEight();
      FirstNine();
      hide FixedLengths, FirstCode, Count, Numeral, CodeBits;
      CodeBitsNumeral(Code(FixedLengths(), s), FixedLengths()[s]);
    } else {
      LastCodes(s);
      hide FixedLengths, Numeral, CodeBits;
      CodeBitsNumeral(s - 88, 8);
    }
  }

  // The fixed literal tree reads the word of every symbol as that symbol.
  lemma FixedLiteral(s: nat, bits: seq<bool>, p: nat)
    requires s < 286 && At(bits, p, LiteralWord(s))
    ensures Walk(BuildTree(FixedLengths(), LITERAL_ALPHABET), bits, p) == Ok(s, p + |LiteralWord(s)|)
  {
    FixedKraft();
    FixedCodeword(s);
    FixedLengthsSize(s);
    hide FixedLengths, Kraft, KraftSum, Walk, BuildTree, Codeword, LiteralWord, At;
    CodewordLength(FixedLengths(), s);
    DecodeCodeword(FixedLengths(), LITERAL_ALPHABET, 9, s, bits, p);
  }

  // The fixed distance tree reads five bits as the number that they write.
  lemma FixedDistance(d: nat, bits: seq<bool>, p: nat)
    requires d < 30 && At(bits, p, Numeral(d, 5))
    ensures Walk(BuildTree(FIXED_DISTANCES, DISTANCE_ALPHABET), bits, p) == Ok(d, p + 5)
  {
    FixedKraft();
    FivesCode(30, d);
    FivesCoded(d);
    CodeBitsNumeral(d, 5);
    assert FIXED_DISTANCES[d] == 5;
    hide Kraft, KraftSum, Walk, BuildTree, Codeword, Numeral, At, CodeBits;
    DecodeCodeword(FIXED_DISTANCES, DISTANCE_ALPHABET, 9, d, bits, p);
  }

  // ----- The letter a, written out

  lemma WordOfA()
    ensures LiteralWord(97) == [true, false, false, true, false, false, false, true]
    ensures LiteralWord(256) == [false, false, false, false, false, false, false]
  {
    assert Pow2(0) == 1 && Pow2(1) == 2 && Pow2(2) == 4 && Pow2(3) == 8;
    assert Pow2(4) == 16 && Pow2(5) == 32 && Pow2(6) == 64 && Pow2(7) == 128;
    hide Pow2;
    forall k | 0 <= k < 7 ensures !LiteralWord(256)[k] {
      assert Pow2(6 - k) > 0;
    }
  }

  lemma ByteValues()
    ensures Value([true, true, false, true, false, false, true, false]) == 75
    ensures Value([false, false, true, false, false, false, false, false]) == 4 && Value([false, false]) == 0
  {
    assert Value([]) == 0 && Pow2(0) == 1 && Pow2(1) == 2 && Pow2(2) == 4 && Pow2(3) == 8;
    assert Pow2(4) == 16 && Pow2(5) == 32 && Pow2(6) == 64;
    hide Pow2, Value;
    var a := [] + [true] + [true] + [false];
    ValueNext([], true);
    ValueNext([] + [true], true);
    ValueNext([] + [true] + [true], false);
    ValueNext(a, true);
    ValueNext(a + [true], false);
    ValueNext(a + [true] + [false], false);
    ValueNext(a + [true] + [false] + [false], true);
    ValueNext(a + [true] + [false] + [false] + [true], false);
    assert a + [true] + [false] + [false] + [true] + [false]
        == [true, true, false, true, false, false, true, false];
    var b := [] + [false] + [false] + [true];
    ValueNext([], false);
    ValueNext([] + [false], false);
    ValueNext([] + [false] + [false], true);
    ValueNext(b, false);
    ValueNext(b + [false], false);
    ValueNext(b + [false] + [false], false);
    ValueNext(b + [false] + [false] + [false], false);
    ValueNext(b + [false] + [false] + [false] + [false], false);
    assert b + [false] + [false] + [false] + [false] + [false]
        == [false, false, true, false, false, false, false, false];
    assert [] + [false] + [false] == [false, false];
  }

  lemma PackOfA()
    ensures Pack([true, true, false, true, false, false, true, false,
                  false, false, true, false, false, false, false, false, false, false]) == [75, 4, 0]
  {
    var third := [false, false];
    var second := [false, false, true, false, false, false, false, false] + third;
    var first := [true, true, false, true, false, false, true, false] + second;
    ByteValues();
    assert first[..8] == [true, true, false, true, false, false, true, false] && first[8..] == second;
    assert second[..8] == [false, false, true, false, false, false, false, false] && second[8..] == third;
    hide Value;
    assert Pack(third) == [0];
    assert Pack(second) == [4, 0];
    assert Pack(first) == [75, 4, 0];
    assert first == [true, true, false, true, false, false, true, false,
                     false, false, true, false, false, false, false, false, false, false];
  }

  lemma DataOfA()
    ensures var tokens := [Literal(97)];
            && AllEncodable(tokens, FixedLengths(), FIXED_DISTANCES) && AllReach(tokens, [])
            && Coded(FixedLengths(), LITERAL_ALPHABET, 256) && ExpandAll(tokens, []) == [97]
            && DataBits(tokens, FixedLengths(), FIXED_DISTANCES) == LiteralWord(97) + LiteralWord(256)
  {
    var tokens := [Literal(97)];
    assert tokens[1..] == [];
    FixedCodeword(97);
    FixedCodeword(256);
    FixedLengthsSize(97);
    FixedLengthsSize(256);
    hide FixedLengths, LiteralWord, Codeword;
    assert tokens[0].Encodable(FixedLengths(), FIXED_DISTANCES);
  }

  lemma StreamOfA(blocks: seq<Block>)
    requires blocks == [Fixed([Literal(97)])]
    ensures ValidStream(blocks, 16, []) && ExpandStream(blocks, 16, []) == [97]
    ensures StreamBits(blocks, 16, []) == [true] + ([true, false] + (LiteralWord(97) + LiteralWord(256)))
  {
    DataOfA();
    LsbOne();
    hide FixedLengths, LiteralWord, AllEncodable, AllReach, ExpandAll, DataBits, Coded, Lsb;
    assert blocks[0].Valid(16, []);
  }

  lemma LsbOne()
    ensures Lsb(1, 2) == [true, false]
  {
    assert Pow2(0) == 1 && Pow2(1) == 2;
  }

  lemma Joined()
    ensures [true] + ([true, false] + ([true, false, false, true, false, false, false, true] +
                                       [false, false, false, false, false, false, false]))
         == [true, true, false, true, false, false, true, false,
             false, false, true, false, false, false, false, false, false, false]
  {
  }

  lemma EncodedA(blocks: seq<Block>)
    requires ValidStream(blocks, 16, []) && Pack(StreamBits(blocks, 16, [])) == [75, 4, 0]
    ensures ZlibEncode(120, 1, blocks, [0, 98, 0, 98]) == [120, 1, 75, 4, 0, 0, 98, 0, 98]
    ensures ValidHeader(120, 1)
  {
    hide Pack, StreamBits, ValidStream;
  }

  // The zlib stream of the letter a: a header, one fixed block, and the checksum.
  lemma LetterA()
    ensures Deflate([120, 1, 75, 4, 0, 0, 98, 0, 98]) == Ok([97], 72)
  {
    hide Deflate, Pack, StreamBits, ExpandStream, ValidStream, LiteralWord, ZlibEncode, ValidHeader;
    var blocks := [Fixed([Literal(97)])];
    StreamOfA(blocks);
    WordOfA();
    Joined();
    PackOfA();
    EncodedA(blocks);
    ZlibInverts(120, 1, blocks, [0, 98, 0, 98]);
  }
}
