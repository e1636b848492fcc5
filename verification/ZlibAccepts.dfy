/** Every stream that the decoder accepts is an encoding of what it returns, for any code lengths in it. */
module ZlibAccepts {
  import opened Arith
  import opened BitStream
  import opened Collections
  import opened DeflateAccepts
  import opened DeflateEncoder
  import opened Huffman
  import opened HuffmanComplete
  import opened InflateSpec
  import opened ZlibRoundTrip

  // ----- Dynamic headers

  lemma CountsRead(bits: seq<bool>, p: nat)
    requires ReadHeader(bits, p).Ok?
    ensures p + 14 <= |bits|
    ensures var a, b, c := ReadBits(bits, p, 5), ReadBits(bits, p + 5, 5), ReadBits(bits, p + 10, 4);
            && a.Ok? && b.Ok? && c.Ok? && a.value < 32 && b.value < 32 && c.value < 16
            && At(bits, p, Lsb(a.value, 5) + (Lsb(b.value, 5) + Lsb(c.value, 4)))
            && ReadLengthLengths(bits, p + 14, 0, c.value + 4, Repeat<nat>(0, 19)).Ok?
            && (var cl := ReadLengthLengths(bits, p + 14, 0, c.value + 4, Repeat<nat>(0, 19));
                ReadHeader(bits, p) == Ok(Header(a.value + 257, b.value + 1, cl.value), cl.next))
  {
    hide Lsb, At, ReadLengthLengths;
    assert Pow2(5) == 32 && Pow2(4) == 16;
    BitsRead(bits, p, 5);
    BitsRead(bits, p + 5, 5);
    BitsRead(bits, p + 10, 4);
    hide ReadBits, Pow2;
    var a, b, c := ReadBits(bits, p, 5).value, ReadBits(bits, p + 5, 5).value, ReadBits(bits, p + 10, 4).value;
    AtJoin(bits, p + 5, Lsb(b, 5), Lsb(c, 4));
    AtJoin(bits, p, Lsb(a, 5), Lsb(b, 5) + Lsb(c, 4));
  }

  lemma NothingFresh()
    ensures Fresh(Repeat<nat>(0, 19), 0)
  {
  }

  lemma TreesParts(bits: seq<bool>, p: nat)
    requires p <= |bits| && DecodeTrees(bits, p).Ok?
    ensures ReadHeader(bits, p).Ok?
    ensures var h := ReadHeader(bits, p);
            && h.next <= |bits|
            && (var bl := ReadLengths(bits, h.next, BuildTree(h.value.lengths, CODE_LENGTH_ALPHABET),
                                      h.value.hlit + h.value.hdist, []);
                && bl.Ok? && h.value.hlit <= |bl.value|
                && DecodeTrees(bits, p) == Ok(TreesOf(bl.value, h.value.hlit), bl.next))
  {
    HeaderProgress(bits, p);
    hide ReadHeader, ReadLengths, TreesOf, BuildTree;
  }

  // The counts and code length lengths that were read can be written down.
  lemma StartRead(bits: seq<bool>, p: nat) returns (h: DynamicHeader)
    requires p <= |bits| && ReadHeader(bits, p).Ok?
    ensures h.runs == [] && h.StartFormed() && At(bits, p, h.Start()) && p + |h.Start()| <= |bits|
    ensures ReadHeader(bits, p) == Ok(Header(h.hlit, h.hdist, h.cl), p + |h.Start()|)
  {
    hide ReadHeader, ReadLengthLengths, At, Lsb, ReadBits, LengthLengthBits, Repeat, Fresh, LengthLengths;
    CountsRead(bits, p);
    var a, b, c := ReadBits(bits, p, 5).value, ReadBits(bits, p + 5, 5).value, ReadBits(bits, p + 10, 4).value;
    NothingFresh();
    LengthLengthsRead(bits, p + 14, 0, c + 4, Repeat<nat>(0, 19));
    var cl := ReadLengthLengths(bits, p + 14, 0, c + 4, Repeat<nat>(0, 19));
    h := DynamicHeader(a + 257, b + 1, c + 4, cl.value, []);
    AtJoin(bits, p, h.Counts(), LengthLengthBits(cl.value, 0, c + 4));
  }

  // Trees that were read come from a header that can be written down.
  lemma TreesRead(bits: seq<bool>, p: nat) returns (h: DynamicHeader)
    requires p <= |bits| && DecodeTrees(bits, p).Ok?
    ensures h.Formed() && At(bits, p, h.Bits())
    ensures DecodeTrees(bits, p) == Ok(TreesOf(h.Lengths(), h.hlit), p + |h.Bits()|)
  {
    hide DecodeTrees, ReadHeader, ReadLengths, TreesOf, BuildTree, At, Lsb, LengthLengthBits;
    hide RunsBits, RunsReach, RunsCoded, ExpandRuns, LengthLengths;
    TreesParts(bits, p);
    h := StartRead(bits, p);
    var start := h.Start();
    var runs := LengthsRead(bits, p + |start|, h.cl, h.hlit + h.hdist, []);
    h := h.(runs := runs);
    AtJoin(bits, p, start, RunsBits(runs, h.cl));
  }

  // ----- Blocks

  lemma DynamicRead(bits: seq<bool>, p: nat, out: Bytes) returns (block: Block)
    requires p + 3 <= |bits| && DynamicBlock(bits, p + 3, out).Ok?
    ensures block.Dynamic? && block.Formed(p, out) && At(bits, p + 3, block.Body(p, out))
    ensures DynamicBlock(bits, p + 3, out) == Ok(block.Expand(p, out), p + 3 + |block.Body(p, out)|)
  {
    hide At, DynamicHeader.Bits, BlockData, DecodeTrees, BuildTree, DynamicHeader.Formed;
    hide AllEncodable, AllReach, ExpandAll, DataBits, Coded;
    hide DynamicHeader.LiteralLengths, DynamicHeader.DistanceLengths;
    TreesProgress(bits, p + 3);
    var h := TreesRead(bits, p + 3);
    HeaderReach(h);
    var tokens := DataRead(bits, p + 3 + |h.Bits()|, h.LiteralLengths(), h.DistanceLengths(), out);
    AtJoin(bits, p + 3, h.Bits(), DataBits(tokens, h.LiteralLengths(), h.DistanceLengths()));
    block := Dynamic(h, tokens);
  }

  lemma HeaderReach(h: DynamicHeader)
    requires h.Formed()
    ensures RunsReach(h.runs, [], h.hlit + h.hdist)
    ensures TreesOf(h.Lengths(), h.hlit)
         == Trees(BuildTree(h.LiteralLengths(), LITERAL_ALPHABET), BuildTree(h.DistanceLengths(), DISTANCE_ALPHABET))
  {
    hide BuildTree, RunsReach, ExpandRuns;
  }

  lemma FixedRead(bits: seq<bool>, p: nat, out: Bytes) returns (block: Block)
    requires p + 3 <= |bits| && FixedBlock(bits, p + 3, out).Ok?
    ensures block.Fixed? && block.Formed(p, out) && At(bits, p + 3, block.Body(p, out))
    ensures FixedBlock(bits, p + 3, out) == Ok(block.Expand(p, out), p + 3 + |block.Body(p, out)|)
  {
    hide At, BlockData, BuildTree, AllEncodable, AllReach, ExpandAll, DataBits, FixedLengths, Coded;
    FixedRoot();
    var tokens := DataRead(bits, p + 3, FixedLengths(), FIXED_DISTANCES, out);
    block := Fixed(tokens);
  }

  lemma FixedRoot()
    ensures BuildTree(FixedLengths(), LITERAL_ALPHABET).symbol.None?
  {
    BuiltWellFormed(FixedLengths(), LITERAL_ALPHABET, |FixedLengths()|);
    hide BuildUpTo;
  }

  lemma StoredParts(bits: seq<bool>, p: nat, out: Bytes)
    requires StoredBlock(bits, p, out).Ok?
    ensures var q := Align(p);
            && ReadBits(bits, q, 16).Ok? && ReadBits(bits, q + 16, 16).Ok?
            && StoredBlock(bits, p, out) == StoredData(bits, q + 32, ReadBits(bits, q, 16).value, out)
  {
    AlignedStays(Align(p) + 16);
    hide Align, Value, StoredData;
  }

  lemma StoredDataRead(bits: seq<bool>, p: nat, len: nat, out: Bytes)
    requires StoredData(bits, p, len, out).Ok?
    ensures p + 8 * len <= |bits|
    ensures var data := StoredBytes(bits, p, len);
            && |data| == len && At(bits, p, BitsOf(data))
            && StoredData(bits, p, len, out) == Ok(out + data, p + |BitsOf(data)|)
  {
    var data := StoredBytes(bits, p, len);
    forall i | 0 <= i < 8 * len ensures BitsOf(data)[i] == bits[p + i] {
      StoredBit(bits, p, len, i);
    }
    hide StoredBytes;
  }

  lemma StoredBit(bits: seq<bool>, p: nat, len: nat, i: nat)
    requires p + 8 * len <= |bits| && i < 8 * len
    ensures BitsOf(StoredBytes(bits, p, len))[i] == bits[p + i]
  {
    var data, k := StoredBytes(bits, p, len), i / 8;
    var eight := bits[p + 8 * k..p + 8 * k + 8];
    assert data[k] == Value(eight);
    hide StoredBytes, Value;
    ByteAt(data, k);
    LsbOfValue(eight);
    hide BitsOf, Lsb;
    assert BitsOf(data)[i] == BitsOf(data)[8 * k..8 * k + 8][i - 8 * k];
    assert bits[p + i] == eight[i - 8 * k];
  }

  lemma StoredRead(bits: seq<bool>, p: nat, out: Bytes) returns (block: Block)
    requires p + 3 <= |bits| && StoredBlock(bits, p + 3, out).Ok?
    ensures block.Stored? && block.Formed(p, out) && At(bits, p + 3, block.Body(p, out))
    ensures StoredBlock(bits, p + 3, out) == Ok(block.Expand(p, out), p + 3 + |block.Body(p, out)|)
  {
    hide At, Lsb, StoredBlock, StoredData, StoredBytes, BitsOf, Pow2, ReadBits;
    StoredParts(bits, p + 3, out);
    var q := Align(p + 3);
    BitsRead(bits, q, 16);
    BitsRead(bits, q + 16, 16);
    Sixteen();
    var len, nlen := ReadBits(bits, q, 16).value, ReadBits(bits, q + 16, 16).value;
    StoredDataRead(bits, q + 32, len, out);
    var data := StoredBytes(bits, q + 32, len);
    block := Stored(bits[p + 3..q], data, nlen);
    SliceAt(bits, p + 3, q);
    AtJoin(bits, q + 16, Lsb(nlen, 16), BitsOf(data));
    AtJoin(bits, q, Lsb(len, 16), Lsb(nlen, 16) + BitsOf(data));
    AtJoin(bits, p + 3, bits[p + 3..q], Lsb(len, 16) + (Lsb(nlen, 16) + BitsOf(data)));
  }

  lemma SliceAt(bits: seq<bool>, p: nat, q: nat)
    requires p <= q <= |bits|
    ensures At(bits, p, bits[p..q])
  {
  }

  lemma BodyParts(bits: seq<bool>, p: nat, out: Bytes)
    requires p <= |bits| && BlockBody(bits, p, out).Ok?
    ensures p + 2 <= |bits| && ReadBits(bits, p, 2).Ok?
    ensures var btype := ReadBits(bits, p, 2).value;
            && btype < 3
            && BlockBody(bits, p, out)
               == (if btype == 0 then StoredBlock(bits, p + 2, out)
                   else if btype == 1 then FixedBlock(bits, p + 2, out)
                   else DynamicBlock(bits, p + 2, out))
  {
    hide StoredBlock, FixedBlock, DynamicBlock, Value;
  }

  // A block that was read can be written down.
  lemma BlockRead(bits: seq<bool>, p: nat, out: Bytes) returns (block: Block)
    requires p < |bits| && BlockBody(bits, p + 1, out).Ok?
    ensures block.Formed(p, out) && At(bits, p, block.Bits(bits[p], p, out))
    ensures BlockBody(bits, p + 1, out) == Ok(block.Expand(p, out), p + |block.Bits(bits[p], p, out)|)
  {
    hide StoredBlock, FixedBlock, DynamicBlock, BlockBody, Lsb, At, ReadBits, Block.Body, Block.Expand, Block.Formed;
    BodyParts(bits, p + 1, out);
    BitsRead(bits, p + 1, 2);
    var btype := ReadBits(bits, p + 1, 2).value;
    if btype == 0 {
      block := StoredRead(bits, p, out);
    } else if btype == 1 {
      block := FixedRead(bits, p, out);
    } else {
      block := DynamicRead(bits, p, out);
    }
    AtJoin(bits, p + 1, Lsb(btype, 2), block.Body(p, out));
    SliceAt(bits, p, p + 1);
    assert bits[p..p + 1] == [bits[p]];
    AtJoin(bits, p, [bits[p]], Lsb(btype, 2) + block.Body(p, out));
  }

  // ----- Streams

  lemma FirstBlock(blocks: seq<Block>, p: nat, out: Bytes, head: seq<bool>, out': Bytes)
    requires |blocks| > 1 && blocks[0].Formed(p, out)
    requires head == blocks[0].Bits(false, p, out) && out' == blocks[0].Expand(p, out)
    requires FormedStream(blocks[1..], p + |head|, out')
    ensures FormedStream(blocks, p, out)
    ensures StreamBits(blocks, p, out) == head + StreamBits(blocks[1..], p + |head|, out')
    ensures ExpandStream(blocks, p, out) == ExpandStream(blocks[1..], p + |head|, out')
  {
    hide Block.Formed, Block.Bits, Block.Expand;
  }

  lemma StreamHasBlock(blocks: seq<Block>, p: nat, out: Bytes)
    requires FormedStream(blocks, p, out)
    ensures blocks != []
  {
  }

  lemma LastBlock(block: Block, p: nat, out: Bytes)
    requires block.Formed(p, out)
    ensures FormedStream([block], p, out) && StreamBits([block], p, out) == block.Bits(true, p, out)
    ensures ExpandStream([block], p, out) == block.Expand(p, out)
  {
    hide Block.Formed, Block.Bits, Block.Expand;
  }

  lemma BlocksNext(bits: seq<bool>, p: nat, out: Bytes)
    requires p <= |bits| && Blocks(bits, p, out).Ok?
    ensures p < |bits| && BlockBody(bits, p + 1, out).Ok?
    ensures var r := BlockBody(bits, p + 1, out);
            && p < r.next <= |bits|
            && Blocks(bits, p, out) == if bits[p] then Ok(r.value, r.next) else Blocks(bits, r.next, r.value)
  {
    if p < |bits| {
      BodyProgress(bits, p + 1, out);
    }
    hide BlockBody;
  }

  // A stream that is accepted is a sequence of blocks, written down in any admissible way, whose expansion is the
  // output; the inflater took exactly their bits.
  lemma {:induction false} StreamRead(bits: seq<bool>, p: nat, out: Bytes) returns (blocks: seq<Block>)
    requires p <= |bits| && Blocks(bits, p, out).Ok?
    ensures FormedStream(blocks, p, out) && At(bits, p, StreamBits(blocks, p, out))
    ensures Blocks(bits, p, out) == Ok(ExpandStream(blocks, p, out), p + |StreamBits(blocks, p, out)|)
    decreases |bits| - p
  {
    hide Blocks, BlockBody, Block.Bits, Block.Expand, Block.Formed, FormedStream, StreamBits, ExpandStream, At;
    BlocksNext(bits, p, out);
    var block := BlockRead(bits, p, out);
    if bits[p] {
      LastBlock(block, p, out);
      blocks := [block];
    } else {
      var head, out' := block.Bits(false, p, out), block.Expand(p, out);
      var rest := StreamRead(bits, p + |head|, out');
      blocks := [block] + rest;
      assert blocks[1..] == rest && rest != [] by { StreamHasBlock(rest, p + |head|, out'); }
      FirstBlock(blocks, p, out, head, out');
      AtJoin(bits, p, head, StreamBits(rest, p + |head|, out'));
    }
  }

  // What encodes an output with prefix-free codes is inflated to it, and what is inflated to an output encodes it.
  lemma Accepts(bits: seq<bool>, p: nat, out: Bytes, out': Bytes, q: nat)
    requires p <= |bits|
    ensures (exists blocks :: ValidStream(blocks, p, out) && Encodes(blocks, bits, p, out, out', q))
            ==> Blocks(bits, p, out) == Ok(out', q)
    ensures Blocks(bits, p, out) == Ok(out', q)
            ==> exists blocks :: FormedStream(blocks, p, out) && Encodes(blocks, bits, p, out, out', q)
  {
    hide Blocks, FormedStream, AllProper, StreamBits, ExpandStream, At;
    if Blocks(bits, p, out) == Ok(out', q) {
      var blocks := StreamRead(bits, p, out);
      assert Encodes(blocks, bits, p, out, out', q);
    }
    if blocks :| ValidStream(blocks, p, out) && Encodes(blocks, bits, p, out, out', q) {
      StreamDecodes(blocks, bits, p, out);
    }
  }

  // The blocks stand at position p, end at q, and expand the output to out'.
  predicate Encodes(blocks: seq<Block>, bits: seq<bool>, p: nat, out: Bytes, out': Bytes, q: nat)
    requires FormedStream(blocks, p, out)
  {
    && At(bits, p, StreamBits(blocks, p, out))
    && q == p + |StreamBits(blocks, p, out)|
    && out' == ExpandStream(blocks, p, out)
  }

  // ----- The container

  // Whatever the decoder accepts is a zlib container: a valid header, the blocks of its output, padding of less than
  // a byte, four checksum bytes, and anything behind them.
  lemma ContainerRead(input: Bytes) returns (blocks: seq<Block>)
    requires Deflate(input).Ok?
    ensures |input| >= 6 && ValidHeader(input[0], input[1])
    ensures FormedStream(blocks, 16, []) && At(BitsOf(input), 16, StreamBits(blocks, 16, []))
    ensures Deflate(input) == Ok(ExpandStream(blocks, 16, []), Align(16 + |StreamBits(blocks, 16, [])|) + 32)
    ensures Align(16 + |StreamBits(blocks, 16, [])|) + 32 <= 8 * |input|
  {
    hide Blocks, FormedStream, StreamBits, ExpandStream, At, BitsOf, Value, Align;
    ContainerParts(input);
    blocks := StreamRead(BitsOf(input), 16, []);
  }

  lemma ContainerParts(input: Bytes)
    requires Deflate(input).Ok?
    ensures |input| >= 6 && ValidHeader(input[0], input[1])
    ensures var r := Blocks(BitsOf(input), 16, []);
            && r.Ok? && Align(r.next) + 32 <= 8 * |input| && Deflate(input) == Ok(r.value, Align(r.next) + 32)
  {
    hide Blocks, BitsOf, Value;
    assert |input| >= 2;
    FirstTwoBytes(input[0], input[1], input[2..]);
    assert [input[0], input[1]] + input[2..] == input;
    var bits := BitsOf(input);
    OutputBound(bits, 16, []);
  }
}
