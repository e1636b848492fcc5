/** Whole streams: blocks, the zlib container, and the theorem that decoding undoes encoding. */
module ZlibRoundTrip {
  import opened Arith
  import opened BitStream
  import opened Collections
  import opened Huffman
  import opened InflateSpec
  import opened DeflateEncoder

  // A stored block carries the bits that fill up its header byte and a second length, neither of which is looked at.
  datatype Block =
    | Stored(pad: seq<bool>, data: Bytes, nlen: nat)
    | Fixed(tokens: seq<Token>)
    | Dynamic(header: DynamicHeader, tokens: seq<Token>)
  {
    function Type(): nat {
      match this
      case Stored(_, _, _) => 0
      case Fixed(_) => 1
      case Dynamic(_, _) => 2
    }

    // The block can be written from bit position p on, after the output `out`.
    predicate Formed(p: nat, out: Bytes) {
      match this
      case Stored(pad, data, nlen) =>
        p + 3 + |pad| == Align(p + 3) && |data| < 65536 && nlen < 65536
      case Fixed(tokens) =>
        AllEncodable(tokens, FixedLengths(), FIXED_DISTANCES) && AllReach(tokens, out)
      case Dynamic(h, tokens) =>
        && h.Formed()
        && Coded(h.LiteralLengths(), LITERAL_ALPHABET, 256)
        && AllEncodable(tokens, h.LiteralLengths(), h.DistanceLengths())
        && AllReach(tokens, out)
    }

    // And all its codes are prefix-free.
    predicate Valid(p: nat, out: Bytes) {
      Formed(p, out) && Proper()
    }

    predicate Proper() {
      Dynamic? ==> header.Valid()
    }

    function Body(p: nat, out: Bytes): seq<bool>
      requires Formed(p, out)
    {
      match this
      case Stored(pad, data, nlen) => pad + (Lsb(|data|, 16) + (Lsb(nlen, 16) + BitsOf(data)))
      case Fixed(tokens) =>
        FixedCodesEnd();
        DataBits(tokens, FixedLengths(), FIXED_DISTANCES)
      case Dynamic(h, tokens) => h.Bits() + DataBits(tokens, h.LiteralLengths(), h.DistanceLengths())
    }

    function Bits(final: bool, p: nat, out: Bytes): seq<bool>
      requires Formed(p, out)
    {
      [final] + (Lsb(Type(), 2) + Body(p, out))
    }

    function Expand(p: nat, out: Bytes): Bytes
      requires Formed(p, out)
    {
      match this
      case Stored(_, data, _) => out + data
      case Fixed(tokens) => ExpandAll(tokens, out)
      case Dynamic(_, tokens) => ExpandAll(tokens, out)
    }
  }

  lemma FixedCodesEnd()
    ensures Coded(FixedLengths(), LITERAL_ALPHABET, 256)
  {
  }

  // ----- Stored blocks

  lemma ReadBytesBack(bits: seq<bool>, p: nat, v: nat, n: nat)
    requires n > 0 && p % 8 == 0 && v < Pow2(8 * n) && At(bits, p, Lsb(v, 8 * n))
    ensures ReadBytes(bits, p, n) == Ok(v, p + 8 * n)
  {
    hide At, Lsb, Pow2, ReadBits;
    ReadBack(bits, p, v, 8 * n);
    AlignedStays(p);
    hide Align;
  }

  lemma AlignedStays(p: nat)
    requires p % 8 == 0
    ensures Align(p) == p
  {
  }

  lemma BytesBack(bits: seq<bool>, p: nat, data: Bytes)
    requires At(bits, p, BitsOf(data))
    ensures StoredBytes(bits, p, |data|) == data
  {
    forall i | 0 <= i < |data| ensures StoredBytes(bits, p, |data|)[i] == data[i] {
      ByteAt(data, i);
      assert bits[p + 8 * i..p + 8 * i + 8] == bits[p..p + 8 * |data|][8 * i..8 * i + 8];
    }
  }

  lemma Sixteen()
    ensures Pow2(16) == 65536
  {
    assert Pow2(8) == 256;
    Pow2Add(8, 8);
  }

  lemma LengthsBack(bits: seq<bool>, q: nat, len: nat, nlen: nat, rest: seq<bool>)
    requires len < 65536 && nlen < 65536 && q % 8 == 0
    requires At(bits, q, Lsb(len, 16) + (Lsb(nlen, 16) + rest))
    ensures ReadBytes(bits, q, 2) == Ok(len, q + 16) && ReadBytes(bits, q + 16, 2) == Ok(nlen, q + 32)
    ensures At(bits, q + 32, rest)
  {
    hide Lsb, At, ReadBytes;
    AtSplit(bits, q, Lsb(len, 16), Lsb(nlen, 16) + rest);
    AtSplit(bits, q + 16, Lsb(nlen, 16), rest);
    Sixteen();
    ReadBytesBack(bits, q, len, 2);
    ReadBytesBack(bits, q + 16, nlen, 2);
  }

  // The padding is skipped and both lengths are read.
  lemma StoredLengths(bits: seq<bool>, p: nat, pad: seq<bool>, len: nat, nlen: nat, rest: seq<bool>)
    requires p + |pad| == Align(p) && len < 65536 && nlen < 65536
    requires At(bits, p, pad + (Lsb(len, 16) + (Lsb(nlen, 16) + rest)))
    ensures var q := p + |pad|;
            && ReadBytes(bits, p, 2) == Ok(len, q + 16) && ReadBytes(bits, q + 16, 2) == Ok(nlen, q + 32)
            && At(bits, q + 32, rest)
  {
    var q := p + |pad|;
    AlignIdempotent(p);
    assert ReadBytes(bits, p, 2) == ReadBytes(bits, q, 2);
    hide At, Lsb, ReadBytes, ReadBits;
    AtSplit(bits, p, pad, Lsb(len, 16) + (Lsb(nlen, 16) + rest));
    LengthsBack(bits, q, len, nlen, rest);
  }

  lemma StoredDataBack(bits: seq<bool>, p: nat, data: Bytes, out: Bytes)
    requires At(bits, p, BitsOf(data))
    ensures StoredData(bits, p, |data|, out) == Ok(out + data, p + 8 * |data|)
  {
    hide At, BitsOf, StoredBytes;
    BytesBack(bits, p, data);
    AtEnd(bits, p, BitsOf(data));
  }

  // Whatever stands in the padding and in NLEN, the data comes out.
  lemma StoredDecodes(block: Block, bits: seq<bool>, p: nat, out: Bytes)
    requires block.Stored? && block.Valid(p, out)
    requires At(bits, p + 3, block.Body(p, out))
    ensures StoredBlock(bits, p + 3, out) == Ok(block.Expand(p, out), p + 3 + |block.Body(p, out)|)
  {
    hide Lsb, At, StoredData, BitsOf, ReadBytes, Align;
    var Stored(pad, data, nlen) := block;
    StoredLengths(bits, p + 3, pad, |data|, nlen, BitsOf(data));
    StoredDataBack(bits, p + 3 + |pad| + 32, data, out);
  }

  lemma AlignIdempotent(p: nat)
    ensures Align(Align(p)) == Align(p)
  {
  }

  // ----- The fixed codes (section 3.2.6) use up the code space

  lemma {:induction false} KraftRepeat(bl: seq<nat>, l: nat, n: nat, m: nat)
    requires AtMost(bl, m) && 0 < l <= m
    ensures AtMost(bl + Repeat(l, n), m)
    ensures KraftSum(bl + Repeat(l, n), m) == KraftSum(bl, m) + n * Pow2(m - l)
    decreases n
  {
    if n == 0 {
      assert bl + Repeat(l, 0) == bl;
    } else {
      KraftRepeat(bl, l, n - 1, m);
      assert bl + Repeat(l, n) == (bl + Repeat(l, n - 1)) + [l];
      hide Repeat, Pow2, KraftSum;
      KraftNext(bl + Repeat(l, n - 1), l, m);
      OneMore(n, Pow2(m - l));
    }
  }

  lemma KraftNext(bl: seq<nat>, l: nat, m: nat)
    requires AtMost(bl, m) && 0 < l <= m
    ensures AtMost(bl + [l], m) && KraftSum(bl + [l], m) == KraftSum(bl, m) + Pow2(m - l)
  {
    hide Pow2;
    assert (bl + [l])[..|bl|] == bl;
  }

  lemma OneMore(n: nat, x: nat)
    requires n > 0
    ensures n * x == (n - 1) * x + x
  {
  }

  lemma FixedKraft()
    ensures Kraft(FixedLengths(), 9) && KraftSum(FixedLengths(), 9) == Pow2(9)
    ensures Kraft(FIXED_DISTANCES, 9) && KraftSum(FIXED_DISTANCES, 9) == 30 * Pow2(4)
  {
    hide KraftSum, Repeat;
    assert Pow2(0) == 1 && Pow2(1) == 2 && Pow2(2) == 4 && Pow2(4) == 16;
    Pow2Add(4, 5);
    assert Pow2(5) == 32;
    var a, b, c, d := Repeat(8, 144), Repeat(9, 112), Repeat(7, 24), Repeat(8, 8);
    EmptyKraft();
    KraftRepeat([], 8, 144, 9);
    assert [] + a == a;
    KraftRepeat(a, 9, 112, 9);
    KraftRepeat(a + b, 7, 24, 9);
    KraftRepeat(a + b + c, 8, 8, 9);
    KraftRepeat([], 5, 30, 9);
    assert [] + FIXED_DISTANCES == FIXED_DISTANCES;
  }

  lemma EmptyKraft()
    ensures KraftSum([], 9) == 0
  {
  }

  lemma FixedDecodes(block: Block, bits: seq<bool>, p: nat, out: Bytes)
    requires block.Fixed? && block.Valid(p, out)
    requires At(bits, p + 3, block.Body(p, out))
    ensures p + 3 <= |bits|
    ensures FixedBlock(bits, p + 3, out) == Ok(block.Expand(p, out), p + 3 + |block.Body(p, out)|)
  {
    hide BuildTree, Kraft, DataBits, BlockData, KraftSum, Codeword;
    FixedKraft();
    FixedCodesEnd();
    DataDecodes(block.tokens, FixedLengths(), FIXED_DISTANCES, 9, bits, p + 3, out);
  }

  lemma HeaderThenData(h: DynamicHeader, ll: seq<nat>, dl: seq<nat>, tokens: seq<Token>,
                       bits: seq<bool>, p: nat, q: nat, out: Bytes)
    requires h.Valid() && ll == h.LiteralLengths() && dl == h.DistanceLengths() && Kraft(ll, 15) && Kraft(dl, 15)
    requires AllEncodable(tokens, ll, dl) && Coded(ll, LITERAL_ALPHABET, 256) && AllReach(tokens, out)
    requires At(bits, p, h.Bits()) && q == p + |h.Bits()| && At(bits, q, DataBits(tokens, ll, dl))
    ensures p <= |bits|
    ensures DynamicBlock(bits, p, out) == Ok(ExpandAll(tokens, out), q + |DataBits(tokens, ll, dl)|)
  {
    hide RunsReach, RunsCoded, RunsBits, LengthLengths, Kraft, Coded, AllEncodable, AllReach, ExpandAll, DataBits;
    hide At, BlockData, BuildTree, DecodeTrees, ExpandRuns, DynamicHeader.Bits, DynamicHeader.Lengths;
    hide DynamicHeader.Formed, LengthLengths;
    AtEnd(bits, p, h.Bits());
    TreesDecode(h, bits, p);
    DataDecodes(tokens, ll, dl, 15, bits, q, out);
  }

  // What a valid dynamic block consists of.
  lemma DynamicParts(block: Block, p: nat, out: Bytes)
    requires block.Dynamic? && block.Valid(p, out)
    ensures block.header.Valid() && RunsReach(block.header.runs, [], block.header.hlit + block.header.hdist)
    ensures Kraft(block.header.LiteralLengths(), 15) && Kraft(block.header.DistanceLengths(), 15)
    ensures var ll, dl := block.header.LiteralLengths(), block.header.DistanceLengths();
            && Coded(ll, LITERAL_ALPHABET, 256) && AllEncodable(block.tokens, ll, dl) && AllReach(block.tokens, out)
            && block.Body(p, out) == block.header.Bits() + DataBits(block.tokens, ll, dl)
            && block.Expand(p, out) == ExpandAll(block.tokens, out)
  {
  }

  lemma DynamicDecodes(block: Block, bits: seq<bool>, p: nat, out: Bytes)
    requires block.Dynamic? && block.Valid(p, out)
    requires At(bits, p + 3, block.Body(p, out))
    ensures p + 3 <= |bits|
    ensures DynamicBlock(bits, p + 3, out) == Ok(block.Expand(p, out), p + 3 + |block.Body(p, out)|)
  {
    hide RunsReach, Kraft, Coded, AllEncodable, AllReach, ExpandAll, DataBits, At, DynamicBlock;
    hide DynamicHeader.Bits, DynamicHeader.LiteralLengths, DynamicHeader.DistanceLengths, DynamicHeader.Valid;
    hide Block.Body, Block.Expand, Block.Formed, Block.Proper;
    DynamicParts(block, p, out);
    var h := block.header;
    var ll, dl := h.LiteralLengths(), h.DistanceLengths();
    AtSplit(bits, p + 3, h.Bits(), DataBits(block.tokens, ll, dl));
    HeaderThenData(h, ll, dl, block.tokens, bits, p + 3, p + 3 + |h.Bits()|, out);
  }

  lemma BodyDecodes(block: Block, bits: seq<bool>, p: nat, out: Bytes)
    requires block.Valid(p, out)
    requires At(bits, p + 1, Lsb(block.Type(), 2) + block.Body(p, out))
    ensures p + 1 <= |bits|
    ensures BlockBody(bits, p + 1, out) == Ok(block.Expand(p, out), p + 3 + |block.Body(p, out)|)
  {
    hide StoredBlock, FixedBlock, DynamicBlock, Lsb, At, ReadBits, Block.Body, Block.Expand, Block.Formed, Block.Proper;
    AtSplit(bits, p + 1, Lsb(block.Type(), 2), block.Body(p, out));
    ReadBack(bits, p + 1, block.Type(), 2);
    AtEnd(bits, p + 3, block.Body(p, out));
    match block {
      case Stored(_, _, _) => StoredDecodes(block, bits, p, out);
      case Fixed(_) => FixedDecodes(block, bits, p, out);
      case Dynamic(_, _) => DynamicDecodes(block, bits, p, out);
    }
  }

  // ----- Streams of blocks

  predicate FormedStream(blocks: seq<Block>, p: nat, out: Bytes) {
    && blocks != []
    && blocks[0].Formed(p, out)
    && (|blocks| > 1 ==>
          FormedStream(blocks[1..], p + |blocks[0].Bits(false, p, out)|, blocks[0].Expand(p, out)))
  }

  predicate AllProper(blocks: seq<Block>) {
    forall i | 0 <= i < |blocks| :: blocks[i].Proper()
  }

  predicate ValidStream(blocks: seq<Block>, p: nat, out: Bytes) {
    FormedStream(blocks, p, out) && AllProper(blocks)
  }

  function StreamBits(blocks: seq<Block>, p: nat, out: Bytes): seq<bool>
    requires FormedStream(blocks, p, out)
  {
    hide Block.Formed, Block.Bits, Block.Expand;
    if |blocks| == 1 then blocks[0].Bits(true, p, out)
    else
      var head := blocks[0].Bits(false, p, out);
      head + StreamBits(blocks[1..], p + |head|, blocks[0].Expand(p, out))
  }

  function ExpandStream(blocks: seq<Block>, p: nat, out: Bytes): Bytes
    requires FormedStream(blocks, p, out)
  {
    hide Block.Formed, Block.Bits, Block.Expand;
    var out' := blocks[0].Expand(p, out);
    if |blocks| == 1 then out' else ExpandStream(blocks[1..], p + |blocks[0].Bits(false, p, out)|, out')
  }

  lemma BlockDecodes(block: Block, final: bool, bits: seq<bool>, p: nat, out: Bytes)
    requires block.Valid(p, out) && At(bits, p, block.Bits(final, p, out))
    ensures p + 1 <= |bits| && ReadBit(bits, p) == Ok(if final then 1 else 0, p + 1)
    ensures BlockBody(bits, p + 1, out) == Ok(block.Expand(p, out), p + |block.Bits(final, p, out)|)
  {
    hide BlockBody, Lsb, Block.Body, Block.Expand, Block.Formed, Block.Proper;
    AtSplit(bits, p, [final], Lsb(block.Type(), 2) + block.Body(p, out));
    assert bits[p] == bits[p..p + 1][0] == final;
    BodyDecodes(block, bits, p, out);
  }

  // Inflating an encoded stream gives the expansion of its tokens, and stops at the bit after the final block.
  lemma {:induction false} StreamDecodes(blocks: seq<Block>, bits: seq<bool>, p: nat, out: Bytes)
    requires ValidStream(blocks, p, out) && At(bits, p, StreamBits(blocks, p, out))
    ensures p <= |bits|
    ensures Blocks(bits, p, out) == Ok(ExpandStream(blocks, p, out), p + |StreamBits(blocks, p, out)|)
    decreases |blocks|
  {
    hide BlockBody, Block.Bits, Block.Expand, Block.Formed, Block.Proper;
    AtEnd(bits, p, StreamBits(blocks, p, out));
    if |blocks| == 1 {
      BlockDecodes(blocks[0], true, bits, p, out);
    } else {
      var head, out' := blocks[0].Bits(false, p, out), blocks[0].Expand(p, out);
      AtSplit(bits, p, head, StreamBits(blocks[1..], p + |head|, out'));
      BlockDecodes(blocks[0], false, bits, p, out);
      BodyProgress(bits, p + 1, out);
      assert AllProper(blocks[1..]);
      StreamDecodes(blocks[1..], bits, p + |head|, out');
    }
  }

  // ----- The container of RFC 1950: two header bytes, the stream, four checksum bytes

  predicate ValidHeader(cmf: byte, flg: byte) {
    && cmf % 16 == 8
    && cmf / 16 <= 7
    && (cmf * 256 + flg) % 31 == 0
    && (flg / 32) % 2 == 0
  }

  function ZlibEncode(cmf: byte, flg: byte, blocks: seq<Block>, checksum: Bytes): Bytes
    requires ValidStream(blocks, 16, [])
  {
    [cmf, flg] + (Pack(StreamBits(blocks, 16, [])) + checksum)
  }

  lemma FirstTwoBytes(cmf: byte, flg: byte, rest: Bytes)
    ensures var bits := BitsOf([cmf, flg] + rest);
            ReadBytes(bits, 0, 1) == Ok(cmf, 8) && ReadBytes(bits, 8, 1) == Ok(flg, 16)
  {
    var input := [cmf, flg] + rest;
    ByteAt(input, 0);
    ByteAt(input, 1);
    assert BitsOf(input)[8 * 0..8 * 0 + 8] == BitsOf(input)[0..8];
    assert BitsOf(input)[8 * 1..8 * 1 + 8] == BitsOf(input)[8..16];
  }

  lemma CodeInside(cmf: byte, flg: byte, code: seq<bool>, checksum: Bytes)
    requires |checksum| == 4
    ensures var input := [cmf, flg] + (Pack(code) + checksum);
            At(BitsOf(input), 16, code) && Align(16 + |code|) + 32 == 8 * |input|
  {
    BitsOfPack(code);
    BitsOfConcat([cmf, flg], Pack(code) + checksum);
    BitsOfConcat(Pack(code), checksum);
    AtInside(BitsOf([cmf, flg]), BitsOf(Pack(code)), BitsOf(checksum), code);
  }

  // A container is decoded whatever fills up the last byte of its stream, whatever the four checksum bytes are,
  // and whatever follows them.
  lemma ContainerDecodes(input: Bytes, blocks: seq<Block>)
    requires |input| >= 2 && ValidHeader(input[0], input[1]) && ValidStream(blocks, 16, [])
    requires At(BitsOf(input), 16, StreamBits(blocks, 16, []))
    requires Align(16 + |StreamBits(blocks, 16, [])|) + 32 <= 8 * |input|
    ensures Deflate(input) == Ok(ExpandStream(blocks, 16, []), Align(16 + |StreamBits(blocks, 16, [])|) + 32)
  {
    hide Deflate, Blocks, BitsOf, StreamBits, ExpandStream, FormedStream, AllProper, At, Align, ValidHeader;
    StreamDecodes(blocks, BitsOf(input), 16, []);
    HeaderAndChecksum(input);
  }

  lemma HeaderAndChecksum(input: Bytes)
    requires |input| >= 2 && ValidHeader(input[0], input[1])
    ensures var r := Blocks(BitsOf(input), 16, []);
            r.Ok? && Align(r.next) + 32 <= 8 * |input| ==> Deflate(input) == Ok(r.value, Align(r.next) + 32)
  {
    hide Blocks, BitsOf, ReadBytes, Align;
    assert [input[0], input[1]] + input[2..] == input;
    FirstTwoBytes(input[0], input[1], input[2..]);
    var r := Blocks(BitsOf(input), 16, []);
    if r.Ok? && Align(r.next) + 32 <= 8 * |input| {
      FourBytes(BitsOf(input), r.next);
    }
  }

  lemma FourBytes(bits: seq<bool>, p: nat)
    requires Align(p) + 32 <= |bits|
    ensures ReadBytes(bits, p, 4).Ok? && ReadBytes(bits, p, 4).next == Align(p) + 32
  {
    hide Align, Value;
  }

  // Decoding a zlib stream undoes encoding it, whatever the four checksum bytes are.
  lemma ZlibInverts(cmf: byte, flg: byte, blocks: seq<Block>, checksum: Bytes)
    requires ValidHeader(cmf, flg) && ValidStream(blocks, 16, []) && |checksum| == 4
    ensures var input := ZlibEncode(cmf, flg, blocks, checksum);
            Deflate(input) == Ok(ExpandStream(blocks, 16, []), 8 * |input|)
  {
    hide Deflate, BitsOf, StreamBits, ExpandStream, FormedStream, AllProper, Pack, At, Align, ValidHeader;
    CodeInside(cmf, flg, StreamBits(blocks, 16, []), checksum);
    ContainerDecodes(ZlibEncode(cmf, flg, blocks, checksum), blocks);
  }

  lemma AtInside(a: seq<bool>, b: seq<bool>, c: seq<bool>, code: seq<bool>)
    requires At(b, 0, code)
    ensures At(a + (b + c), |a|, code)
  {
    assert (a + (b + c))[|a|..|a| + |code|] == b[..|code|];
  }

  // ----- Every byte string has encodings

  lemma {:induction false} LiteralsExpand(data: Bytes, out: Bytes)
    ensures var tokens := seq(|data|, i requires 0 <= i < |data| => Literal(data[i]));
            AllReach(tokens, out) && ExpandAll(tokens, out) == out + data
    decreases |data|
  {
    var tokens := seq(|data|, i requires 0 <= i < |data| => Literal(data[i]));
    if data != [] {
      LiteralsExpand(data[1..], out + [data[0]]);
      assert tokens[1..] == seq(|data[1..]|, i requires 0 <= i < |data[1..]| => Literal(data[1..][i]));
      assert out + [data[0]] + data[1..] == out + data;
    } else {
      assert out + data == out;
    }
  }

  lemma FixedEncodesAnything(data: Bytes) returns (blocks: seq<Block>)
    ensures ValidStream(blocks, 16, []) && ExpandStream(blocks, 16, []) == data
  {
    var tokens := seq(|data|, i requires 0 <= i < |data| => Literal(data[i]));
    LiteralsExpand(data, []);
    blocks := [Fixed(tokens)];
    assert [] + data == data;
    assert blocks[0].Valid(16, []);
  }
}
