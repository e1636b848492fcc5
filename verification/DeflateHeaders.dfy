/** Every pair of codes has a dynamic header, so every byte string has an encoding in a dynamic block. */
module DeflateHeaders {
  import opened Arith
  import opened BitStream
  import opened Collections
  import opened DeflateEncoder
  import opened Huffman
  import opened InflateSpec
  import opened ZlibRoundTrip

  // One symbol for each length, without runs.
  function PlainRuns(bl: seq<nat>): (runs: seq<Run>)
    ensures |runs| == |bl|
  {
    seq(|bl|, i requires 0 <= i < |bl| => Length(bl[i]))
  }

  lemma {:induction false} PlainRunsExpand(bl: seq<nat>, before: seq<nat>)
    requires AtMost(bl, 15)
    ensures RunsReach(PlainRuns(bl), before, |before + bl|)
    ensures ExpandRuns(PlainRuns(bl), before, |before + bl|) == before + bl
    decreases |bl|
  {
    if bl == [] {
      assert before + bl == before;
    } else {
      assert PlainRuns(bl)[1..] == PlainRuns(bl[1..]);
      assert before + bl == before + [bl[0]] + bl[1..];
      PlainRunsExpand(bl[1..], before + [bl[0]]);
    }
  }

  // A code length code of sixteen four-bit codewords, one for each length.
  function PlainLengths(): (cl: seq<nat>)
    ensures |cl| == 19
  {
    Repeat(4, 16) + [0, 0, 0]
  }

  lemma PlainKraft()
    ensures Kraft(PlainLengths(), 7)
  {
    var cl, four := PlainLengths(), Repeat<nat>(4, 16);
    assert Pow2(3) == 8 && Pow2(7) == 128;
    assert [] + four == four;
    assert KraftSum([], 7) == 0;
    KraftRepeat([], 4, 16, 7);
    assert cl[..18] == four + [0, 0] && cl[..18][..17] == four + [0] && cl[..18][..17][..16] == four;
    hide Repeat;
    assert KraftSum(cl[..18][..17], 7) == 128;
    assert KraftSum(cl[..18], 7) == 128;
  }

  lemma PlainOrder()
    ensures LengthLengths(PlainLengths(), 19)
  {
    forall x | 0 <= x < 19 ensures RANK[x] < 19 {
      RankInvertsOrder(x);
    }
  }

  // The code lengths of any two codes that fit the format can be transmitted.
  lemma EveryCode(ll: seq<nat>, dl: seq<nat>) returns (h: DynamicHeader)
    requires 257 <= |ll| <= 288 && 1 <= |dl| <= 32 && Kraft(ll, 15) && Kraft(dl, 15)
    ensures h.Valid() && h.LiteralLengths() == ll && h.DistanceLengths() == dl
  {
    hide KraftSum;
    h := DynamicHeader(|ll|, |dl|, 19, PlainLengths(), PlainRuns(ll + dl));
    PlainKraft();
    PlainOrder();
    PlainRunsExpand(ll + dl, []);
    assert [] + (ll + dl) == ll + dl;
    hide LengthLengths, Kraft, RunsReach, ExpandRuns;
    assert RunsCoded(h.runs, h.cl);
    assert h.Lengths() == ll + dl;
  }

  // Every byte string has an encoding in a dynamic block, with any literal code that has all the symbols.
  lemma DynamicEncodesAnything(data: Bytes, ll: seq<nat>, dl: seq<nat>) returns (h: DynamicHeader, tokens: seq<Token>)
    requires 257 <= |ll| <= 288 && 1 <= |dl| <= 32 && Kraft(ll, 15) && Kraft(dl, 15)
    requires forall i | 0 <= i <= 256 :: ll[i] != 0
    ensures h.Valid() && h.LiteralLengths() == ll && h.DistanceLengths() == dl
    ensures ValidStream([Dynamic(h, tokens)], 16, []) && ExpandStream([Dynamic(h, tokens)], 16, []) == data
  {
    hide Kraft;
    h := EveryCode(ll, dl);
    tokens := seq(|data|, i requires 0 <= i < |data| => Literal(data[i]));
    LiteralsExpand(data, []);
    assert [] + data == data;
    assert AllEncodable(tokens, ll, dl) && Coded(ll, LITERAL_ALPHABET, 256);
    OneDynamic(h, tokens);
  }

  lemma OneDynamic(h: DynamicHeader, tokens: seq<Token>)
    requires h.Valid() && AllEncodable(tokens, h.LiteralLengths(), h.DistanceLengths()) && AllReach(tokens, [])
    requires Coded(h.LiteralLengths(), LITERAL_ALPHABET, 256)
    ensures ValidStream([Dynamic(h, tokens)], 16, [])
    ensures ExpandStream([Dynamic(h, tokens)], 16, []) == ExpandAll(tokens, [])
  {
    assert [Dynamic(h, tokens)][0].Valid(16, []);
  }

  lemma {:induction false} KraftDoubles(bl: seq<nat>, m: nat)
    requires AtMost(bl, m)
    ensures AtMost(bl, m + 1) && KraftSum(bl, m + 1) == 2 * KraftSum(bl, m)
  {
    if bl != [] {
      KraftDoubles(bl[..|bl| - 1], m);
    }
  }

  lemma {:induction false} KraftWider(bl: seq<nat>, m: nat, m': nat)
    requires Kraft(bl, m) && m <= m'
    ensures Kraft(bl, m')
    decreases m' - m
  {
    if m < m' {
      KraftDoubles(bl, m);
      KraftWider(bl, m + 1, m');
    }
  }

  // For one, the fixed codes can be sent as dynamic ones.
  lemma DynamicFixed(data: Bytes) returns (h: DynamicHeader, tokens: seq<Token>)
    ensures h.Valid() && h.LiteralLengths() == FixedLengths() && h.DistanceLengths() == FIXED_DISTANCES
    ensures ValidStream([Dynamic(h, tokens)], 16, []) && ExpandStream([Dynamic(h, tokens)], 16, []) == data
  {
    hide Kraft;
    FixedKraft();
    KraftWider(FixedLengths(), 9, 15);
    KraftWider(FIXED_DISTANCES, 9, 15);
    h, tokens := DynamicEncodesAnything(data, FixedLengths(), FIXED_DISTANCES);
  }
}
