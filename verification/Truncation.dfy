/** Input that ends early: what was read before the end is read again, and the first read beyond it finds the end. */
module Truncation {
  import opened BitStream
  import opened Collections
  import opened Huffman
  import opened HuffmanComplete
  import opened InflateSpec
  import opened ZlibAccepts
  import opened ZlibRoundTrip

  // r' is the result on the first n bits, r that on all of them.
  ghost predicate Cut<T(!new)>(r: Parsed<T>, r': Parsed<T>, n: nat) {
    && (r.Ok? && r.next <= n ==> r' == r)
    && (r.Ok? && r.next > n ==> r' == Err(EndOfData))
    && (!r.Ok? ==> r' == r || r' == Err(EndOfData))
  }

  // ----- Numbers and symbols

  lemma Slice(bits: seq<bool>, n: nat, p: nat, q: nat)
    requires p <= q <= n <= |bits|
    ensures bits[..n][p..q] == bits[p..q]
  {
  }

  lemma BitsCut(bits: seq<bool>, n: nat, p: nat, k: nat)
    requires n <= |bits|
    ensures Cut(ReadBits(bits, p, k), ReadBits(bits[..n], p, k), n)
  {
    if p + k <= n {
      Slice(bits, n, p, p + k);
    }
    hide Value;
  }

  lemma BytesCut(bits: seq<bool>, n: nat, p: nat, k: nat)
    requires n <= |bits| && k > 0
    ensures Cut(ReadBytes(bits, p, k), ReadBytes(bits[..n], p, k), n)
  {
    hide ReadBits, Align;
    BitsCut(bits, n, Align(p), 8 * k);
  }

  lemma {:induction false} WalkCut(t: Tree, bits: seq<bool>, n: nat, p: nat)
    requires t.Node? && p <= n <= |bits|
    ensures Cut(Walk(t, bits, p), Walk(t, bits[..n], p), n)
    decreases t
  {
    if !t.Leaf() && p < |bits| {
      var child := t.Child(bits[p]);
      if child.Node? {
        WalkProgress(child, bits, p + 1);
        if p < n {
          assert bits[..n][p] == bits[p];
          WalkCut(child, bits, n, p + 1);
        }
      }
    }
  }

  // ----- Block data

  lemma CopyCut(bits: seq<bool>, n: nat, p: nat, k: nat, base: nat, length: nat, out: Bytes)
    requires n <= |bits| && base > 0
    ensures Cut(Copy(bits, p, k, base, length, out), Copy(bits[..n], p, k, base, length, out), n)
  {
    hide ReadBits, CopyBack;
    BitsCut(bits, n, p, k);
    CopyEnds(bits, p, k, base, length, out);
  }

  lemma CopyEnds(bits: seq<bool>, p: nat, k: nat, base: nat, length: nat, out: Bytes)
    requires base > 0
    ensures Copy(bits, p, k, base, length, out).Ok? ==>
              ReadBits(bits, p, k).Ok? && Copy(bits, p, k, base, length, out).next == ReadBits(bits, p, k).next == p + k
  {
    hide CopyBack, Value;
  }

  // Behind the extra bits of the length.
  function PairRest(bits: seq<bool>, p: nat, distances: Tree, length: nat, out: Bytes): Parsed<Bytes>
    requires distances.Node?
  {
    var (d, q) :- Walk(distances, bits, p);
    if d >= DISTANCE_SYMBOLS then Err(InvalidDistanceSymbol)
    else Copy(bits, q, DistanceExtra(d), DistanceBase(d), length, out)
  }

  lemma PairRestCut(bits: seq<bool>, n: nat, p: nat, distances: Tree, length: nat, out: Bytes)
    requires p <= n <= |bits| && distances.Node?
    ensures Cut(PairRest(bits, p, distances, length, out), PairRest(bits[..n], p, distances, length, out), n)
  {
    hide Walk, ReadBits, Copy, DistanceExtra, DistanceBase;
    WalkProgress(distances, bits, p);
    WalkCut(distances, bits, n, p);
    var d := Walk(distances, bits, p);
    if d.Ok? && d.value < DISTANCE_SYMBOLS {
      CopyEnds(bits, d.next, DistanceExtra(d.value), DistanceBase(d.value), length, out);
      CopyCut(bits, n, d.next, DistanceExtra(d.value), DistanceBase(d.value), length, out);
    }
  }

  lemma PairRestMoves(bits: seq<bool>, p: nat, distances: Tree, length: nat, out: Bytes)
    requires p <= |bits| && distances.Node?
    ensures PairRest(bits, p, distances, length, out).Ok? ==> p <= PairRest(bits, p, distances, length, out).next
  {
    hide Walk, ReadBits, Copy, DistanceExtra, DistanceBase;
    WalkProgress(distances, bits, p);
    var d := Walk(distances, bits, p);
    if d.Ok? && d.value < DISTANCE_SYMBOLS {
      CopyEnds(bits, d.next, DistanceExtra(d.value), DistanceBase(d.value), length, out);
    }
  }

  lemma PairIs(bits: seq<bool>, p: nat, distances: Tree, k: nat, out: Bytes)
    requires distances.Node? && k < LENGTH_SYMBOLS
    ensures var e := ReadBits(bits, p, LengthExtra(k));
            Pair(bits, p, distances, k, out)
            == if e.Ok? then PairRest(bits, e.next, distances, e.value + LengthBase(k), out)
               else e.PropagateFailure()
  {
    hide Walk, ReadBits, Copy, LengthExtra, LengthBase, DistanceExtra, DistanceBase;
  }

  lemma PairUnknown(bits: seq<bool>, p: nat, distances: Tree, k: nat, out: Bytes)
    requires distances.Node? && k >= LENGTH_SYMBOLS
    ensures Pair(bits, p, distances, k, out) == Err(InvalidLengthSymbol)
  {
  }

  lemma PairCut(bits: seq<bool>, n: nat, p: nat, distances: Tree, k: nat, out: Bytes)
    requires p <= n <= |bits| && distances.Node?
    ensures Cut(Pair(bits, p, distances, k, out), Pair(bits[..n], p, distances, k, out), n)
  {
    hide Pair, PairRest, ReadBits, LengthExtra, LengthBase;
    var less := bits[..n];
    if k >= LENGTH_SYMBOLS {
      PairUnknown(bits, p, distances, k, out);
      PairUnknown(less, p, distances, k, out);
    } else {
      PairIs(bits, p, distances, k, out);
      PairIs(less, p, distances, k, out);
      BitsCut(bits, n, p, LengthExtra(k));
      BitsMove(bits, p, LengthExtra(k));
      var e := ReadBits(bits, p, LengthExtra(k));
      if e.Ok? {
        PairRestMoves(bits, e.next, distances, e.value + LengthBase(k), out);
        if e.next <= n {
          PairRestCut(bits, n, e.next, distances, e.value + LengthBase(k), out);
        }
      }
    }
  }

  lemma BitsMove(bits: seq<bool>, p: nat, k: nat)
    ensures ReadBits(bits, p, k).Ok? ==> ReadBits(bits, p, k).next == p + k <= |bits|
    ensures !ReadBits(bits, p, k).Panic?
  {
    hide Value;
  }

  lemma RoundCut(bits: seq<bool>, n: nat, p: nat, literals: Tree, distances: Tree, out: Bytes)
    requires p <= n <= |bits| && literals.Node? && distances.Node?
    ensures Cut(SymbolRound(bits, p, literals, distances, out), SymbolRound(bits[..n], p, literals, distances, out), n)
  {
    hide Walk, Pair;
    WalkProgress(literals, bits, p);
    WalkCut(literals, bits, n, p);
    var s := Walk(literals, bits, p);
    if s.Ok? && s.value > 256 {
      PairProgress(bits, s.next, distances, s.value - 257, out);
      if s.next <= n {
        PairCut(bits, n, s.next, distances, s.value - 257, out);
      }
    }
  }

  lemma DataNext(bits: seq<bool>, p: nat, literals: Tree, distances: Tree, out: Bytes)
    requires p <= |bits| && literals.Node? && distances.Node? && literals.symbol.None?
    ensures var r := SymbolRound(bits, p, literals, distances, out);
            && (r.Ok? ==> p < r.next <= |bits|)
            && BlockData(bits, p, literals, distances, out)
               == if !r.Ok? then r.PropagateFailure()
                  else if r.value.over then Ok(r.value.out, r.next)
                  else BlockData(bits, r.next, literals, distances, r.value.out)
  {
    RoundProgress(bits, p, literals, distances, out);
    hide SymbolRound;
  }

  lemma {:induction false} DataCut(bits: seq<bool>, n: nat, p: nat, literals: Tree, distances: Tree, out: Bytes)
    requires p <= n <= |bits| && literals.Node? && distances.Node?
    requires literals.symbol.None? && distances.symbol.None?
    ensures Cut(BlockData(bits, p, literals, distances, out), BlockData(bits[..n], p, literals, distances, out), n)
    decreases |bits| - p
  {
    hide SymbolRound, BlockData;
    DataNext(bits, p, literals, distances, out);
    DataNext(bits[..n], p, literals, distances, out);
    RoundCut(bits, n, p, literals, distances, out);
    var r := SymbolRound(bits, p, literals, distances, out);
    if r.Ok? && !r.value.over {
      DataBound(bits, r.next, literals, distances, r.value.out);
      if r.next <= n {
        DataCut(bits, n, r.next, literals, distances, r.value.out);
      }
    }
  }

  // ----- Dynamic headers

  lemma {:induction false} LengthLengthsCut(bits: seq<bool>, n: nat, p: nat, i: nat, hclen: nat, bl: seq<nat>)
    requires p <= n <= |bits| && i <= hclen <= 19 && |bl| == 19
    ensures Cut(ReadLengthLengths(bits, p, i, hclen, bl), ReadLengthLengths(bits[..n], p, i, hclen, bl), n)
    decreases hclen - i
  {
    if i != hclen {
      hide OrderAt, ReadBits;
      BitsCut(bits, n, p, 3);
      BitsMove(bits, p, 3);
      BitsMove(bits[..n], p, 3);
      if ReadBits(bits, p, 3).Ok? {
        var bl' := bl[OrderAt(i) := ReadBits(bits, p, 3).value];
        LengthLengthsProgress(bits, p + 3, i + 1, hclen, bl');
        if p + 3 <= n {
          LengthLengthsCut(bits, n, p + 3, i + 1, hclen, bl');
        }
      }
    }
  }

  lemma LengthRoundCut(bits: seq<bool>, n: nat, p: nat, tree: Tree, bl: seq<nat>)
    requires p <= n <= |bits| && tree.Node?
    ensures Cut(LengthRound(bits, p, tree, bl), LengthRound(bits[..n], p, tree, bl), n)
  {
    hide Walk, ReadBits, Repeat;
    WalkCut(tree, bits, n, p);
    var s := Walk(tree, bits, p);
    if s.Ok? {
      BitsCut(bits, n, s.next, 2);
      BitsCut(bits, n, s.next, 3);
      BitsCut(bits, n, s.next, 7);
      BitsMove(bits, s.next, 2);
      BitsMove(bits, s.next, 3);
      BitsMove(bits, s.next, 7);
    }
  }

  lemma LengthsStep(bits: seq<bool>, p: nat, tree: Tree, wanted: nat, bl: seq<nat>)
    requires p <= |bits| && tree.Node?
    ensures |bl| >= wanted ==> ReadLengths(bits, p, tree, wanted, bl) == Ok(bl, p)
    ensures var r := LengthRound(bits, p, tree, bl);
            && (r.Ok? ==> p <= r.next <= |bits| && |r.value| > |bl|)
            && (|bl| < wanted ==>
                  ReadLengths(bits, p, tree, wanted, bl)
                  == if r.Ok? then ReadLengths(bits, r.next, tree, wanted, r.value) else r)
  {
    LengthProgress(bits, p, tree, bl);
    hide LengthRound;
  }

  lemma {:induction false} LengthsCut(bits: seq<bool>, n: nat, p: nat, tree: Tree, wanted: nat, bl: seq<nat>)
    requires p <= n <= |bits| && tree.Node?
    ensures Cut(ReadLengths(bits, p, tree, wanted, bl), ReadLengths(bits[..n], p, tree, wanted, bl), n)
    decreases wanted - |bl|
  {
    hide LengthRound, ReadLengths;
    LengthsStep(bits, p, tree, wanted, bl);
    LengthsStep(bits[..n], p, tree, wanted, bl);
    LengthRoundCut(bits, n, p, tree, bl);
    var r := LengthRound(bits, p, tree, bl);
    if |bl| < wanted && r.Ok? {
      LengthsProgress(bits, r.next, tree, wanted, r.value);
      if r.next <= n {
        LengthsCut(bits, n, r.next, tree, wanted, r.value);
      }
    }
  }

  lemma HeaderCut(bits: seq<bool>, n: nat, p: nat)
    requires p <= n <= |bits|
    ensures Cut(ReadHeader(bits, p), ReadHeader(bits[..n], p), n)
  {
    hide ReadBits, ReadLengthLengths;
    BitsCut(bits, n, p, 5);
    BitsCut(bits, n, p + 5, 5);
    BitsCut(bits, n, p + 10, 4);
    BitsMove(bits, p, 5);
    BitsMove(bits, p + 5, 5);
    BitsMove(bits, p + 10, 4);
    BitsMove(bits[..n], p, 5);
    BitsMove(bits[..n], p + 5, 5);
    BitsMove(bits[..n], p + 10, 4);
    FourBits(bits, p + 10);
    if ReadBits(bits, p + 10, 4).Ok? {
      var hclen := ReadBits(bits, p + 10, 4).value + 4;
      LengthLengthsProgress(bits, p + 14, 0, hclen, Repeat(0, 19));
      if p + 14 <= n {
        LengthLengthsCut(bits, n, p + 14, 0, hclen, Repeat(0, 19));
      }
    }
  }

  lemma TreesCut(bits: seq<bool>, n: nat, p: nat)
    requires p <= n <= |bits|
    ensures Cut(DecodeTrees(bits, p), DecodeTrees(bits[..n], p), n)
  {
    hide ReadHeader, ReadLengths, TreesOf, BuildTree;
    HeaderCut(bits, n, p);
    HeaderProgress(bits, p);
    HeaderProgress(bits[..n], p);
    var h := ReadHeader(bits, p);
    if h.Ok? {
      var tree, wanted := BuildTree(h.value.lengths, CODE_LENGTH_ALPHABET), h.value.hlit + h.value.hdist;
      LengthsProgress(bits, h.next, tree, wanted, []);
      if h.next <= n {
        LengthsCut(bits, n, h.next, tree, wanted, []);
      }
    }
  }

  // ----- Blocks

  lemma StoredDataCut(bits: seq<bool>, n: nat, p: nat, len: nat, out: Bytes)
    requires n <= |bits|
    ensures Cut(StoredData(bits, p, len, out), StoredData(bits[..n], p, len, out), n)
  {
    if p + 8 * len <= n {
      forall i | 0 <= i < len ensures StoredBytes(bits, p, len)[i] == StoredBytes(bits[..n], p, len)[i] {
        Slice(bits, n, p + 8 * i, p + 8 * i + 8);
      }
      assert StoredBytes(bits, p, len) == StoredBytes(bits[..n], p, len);
    }
    hide StoredBytes;
  }

  lemma BytesMove(bits: seq<bool>, p: nat, k: nat)
    requires k > 0
    ensures ReadBytes(bits, p, k).Ok? ==> p <= ReadBytes(bits, p, k).next <= |bits|
    ensures !ReadBytes(bits, p, k).Panic?
  {
    hide Value;
  }

  lemma StoredCut(bits: seq<bool>, n: nat, p: nat, out: Bytes)
    requires n <= |bits|
    ensures Cut(StoredBlock(bits, p, out), StoredBlock(bits[..n], p, out), n)
  {
    hide ReadBytes, StoredBytes;
    BytesCut(bits, n, p, 2);
    BytesMove(bits, p, 2);
    var len := ReadBytes(bits, p, 2);
    if len.Ok? {
      BytesCut(bits, n, len.next, 2);
      BytesMove(bits, len.next, 2);
      var nlen := ReadBytes(bits, len.next, 2);
      if nlen.Ok? {
        StoredDataCut(bits, n, nlen.next, len.value, out);
      }
    }
  }

  lemma FixedCut(bits: seq<bool>, n: nat, p: nat, out: Bytes)
    requires p <= n <= |bits|
    ensures Cut(FixedBlock(bits, p, out), FixedBlock(bits[..n], p, out), n)
  {
    hide BlockData, BuildUpTo, FixedLengths;
    BuiltWellFormed(FixedLengths(), LITERAL_ALPHABET, |FixedLengths()|);
    BuiltWellFormed(FIXED_DISTANCES, DISTANCE_ALPHABET, |FIXED_DISTANCES|);
    DataCut(bits, n, p, BuildTree(FixedLengths(), LITERAL_ALPHABET),
            BuildTree(FIXED_DISTANCES, DISTANCE_ALPHABET), out);
  }

  lemma DynamicCut(bits: seq<bool>, n: nat, p: nat, out: Bytes)
    requires p <= n <= |bits|
    ensures Cut(DynamicBlock(bits, p, out), DynamicBlock(bits[..n], p, out), n)
  {
    hide DecodeTrees, BlockData;
    TreesCut(bits, n, p);
    TreesProgress(bits, p);
    TreesProgress(bits[..n], p);
    var t := DecodeTrees(bits, p);
    if t.Ok? {
      DataBound(bits, t.next, t.value.literals, t.value.distances, out);
      if t.next <= n {
        DataCut(bits, n, t.next, t.value.literals, t.value.distances, out);
      }
    }
  }

  lemma BodyCut(bits: seq<bool>, n: nat, p: nat, out: Bytes)
    requires p <= n <= |bits|
    ensures Cut(BlockBody(bits, p, out), BlockBody(bits[..n], p, out), n)
  {
    hide ReadBits, StoredBlock, FixedBlock, DynamicBlock;
    BitsCut(bits, n, p, 2);
    BitsMove(bits, p, 2);
    BitsMove(bits[..n], p, 2);
    BodyProgress(bits, p, out);
    if p + 2 <= n {
      StoredCut(bits, n, p + 2, out);
      FixedCut(bits, n, p + 2, out);
      DynamicCut(bits, n, p + 2, out);
    } else if p + 2 <= |bits| {
      BodyEnds(bits, p, out);
    }
  }

  lemma BodyEnds(bits: seq<bool>, p: nat, out: Bytes)
    requires p + 2 <= |bits|
    ensures BlockBody(bits, p, out).Ok? ==> BlockBody(bits, p, out).next >= p + 2
  {
    hide FixedBlock, DynamicBlock, StoredBlock, ReadBits;
    BitsMove(bits, p, 2);
    StoredEnds(bits, p + 2, out);
    FixedBound(bits, p + 2, out);
    DynamicBound(bits, p + 2, out);
  }

  lemma StoredEnds(bits: seq<bool>, p: nat, out: Bytes)
    ensures StoredBlock(bits, p, out).Ok? ==> StoredBlock(bits, p, out).next >= p
  {
    hide ReadBytes, StoredBytes;
    BytesMove(bits, p, 2);
    var len := ReadBytes(bits, p, 2);
    if len.Ok? {
      BytesMove(bits, len.next, 2);
    }
  }

  lemma BlocksStep(bits: seq<bool>, p: nat, out: Bytes)
    requires p < |bits|
    ensures var r := BlockBody(bits, p + 1, out);
            && (r.Ok? ==> p < r.next <= |bits|)
            && Blocks(bits, p, out)
               == if !r.Ok? then r else if bits[p] then Ok(r.value, r.next) else Blocks(bits, r.next, r.value)
  {
    hide BlockBody;
    BodyProgress(bits, p + 1, out);
  }

  // Inflating less input: the same result if the stream was not cut, and the end of data otherwise.
  lemma {:induction false} BlocksCut(bits: seq<bool>, n: nat, p: nat, out: Bytes)
    requires p <= n <= |bits|
    ensures Cut(Blocks(bits, p, out), Blocks(bits[..n], p, out), n)
    decreases |bits| - p
  {
    hide Blocks, BlockBody;
    if p == |bits| {
      assert bits[..n] == bits;
      NothingLeft(bits, p, out);
    } else {
      BlocksStep(bits, p, out);
      OutputBound(bits, p, out);
      if p == n {
        NothingLeft(bits[..n], p, out);
      } else {
        BlocksStep(bits[..n], p, out);
        assert bits[..n][p] == bits[p];
        BodyCut(bits, n, p + 1, out);
        var r := BlockBody(bits, p + 1, out);
        if r.Ok? {
          OutputBound(bits, r.next, r.value);
          if r.next <= n {
            BlocksCut(bits, n, r.next, r.value);
          }
        }
      }
    }
  }

  lemma NothingLeft(bits: seq<bool>, p: nat, out: Bytes)
    requires p == |bits|
    ensures Blocks(bits, p, out) == Err(EndOfData)
  {
  }

  // ----- The container

  lemma BitsOfStart(input: Bytes, k: nat)
    requires k <= |input|
    ensures BitsOf(input[..k]) == BitsOf(input)[..8 * k]
  {
  }

  // Behind a valid header come the blocks and four bytes.
  lemma BehindHeader(input: Bytes)
    requires |input| >= 2 && ValidHeader(input[0], input[1])
    ensures var r := Blocks(BitsOf(input), 16, []);
            && (!r.Ok? ==> Deflate(input) == r)
            && (r.Ok? ==>
                  var c := ReadBytes(BitsOf(input), r.next, 4);
                  Deflate(input) == if c.Ok? then Ok(r.value, c.next) else Err(EndOfData))
  {
    hide BitsOf, Blocks, ReadBytes, Deflate, ValidHeader;
    assert [input[0], input[1]] + input[2..] == input;
    FirstTwoBytes(input[0], input[1], input[2..]);
    var r := Blocks(BitsOf(input), 16, []);
    if r.Ok? {
      BytesMove(BitsOf(input), r.next, 4);
      BytesFail(BitsOf(input), r.next, 4);
      BlocksThenEnd(input, input[0], input[1], r.value, r.next);
    } else {
      BlocksFail(input, input[0], input[1]);
    }
  }

  lemma BlocksFail(input: Bytes, cmf: byte, flg: byte)
    requires ReadBytes(BitsOf(input), 0, 1) == Ok(cmf, 8) && ReadBytes(BitsOf(input), 8, 1) == Ok(flg, 16)
    requires ValidHeader(cmf, flg) && |input| >= 2 && !Blocks(BitsOf(input), 16, []).Ok?
    ensures Deflate(input) == Blocks(BitsOf(input), 16, [])
  {
    hide BitsOf, Blocks, ReadBytes;
  }

  lemma BlocksThenEnd(input: Bytes, cmf: byte, flg: byte, out: Bytes, q: nat)
    requires ReadBytes(BitsOf(input), 0, 1) == Ok(cmf, 8) && ReadBytes(BitsOf(input), 8, 1) == Ok(flg, 16)
    requires ValidHeader(cmf, flg) && |input| >= 2 && Blocks(BitsOf(input), 16, []) == Ok(out, q)
    requires !ReadBytes(BitsOf(input), q, 4).Ok? ==> ReadBytes(BitsOf(input), q, 4) == Err(EndOfData)
    ensures var c := ReadBytes(BitsOf(input), q, 4);
            Deflate(input) == if c.Ok? then Ok(out, c.next) else Err(EndOfData)
  {
    hide BitsOf, Blocks, ReadBytes;
  }

  lemma BytesFail(bits: seq<bool>, p: nat, k: nat)
    ensures ReadBytes(bits, p, k).Err? ==> ReadBytes(bits, p, k) == Err(EndOfData)
  {
    hide Value;
  }

  lemma Header(input: Bytes)
    requires Deflate(input).Ok?
    ensures |input| >= 2 && ValidHeader(input[0], input[1])
  {
    hide Deflate, Blocks;
    ContainerParts(input);
  }

  lemma HardlyAnything(input: Bytes, flg: byte)
    requires |input| < 2 && (|input| == 1 ==> ValidHeader(input[0], flg))
    ensures Deflate(input) == Err(EndOfData)
  {
    hide Blocks, BitsOf, ReadBytes;
    if input == [] {
      EndReached(BitsOf(input), 0, 1);
    } else {
      OneByte(input);
      EndReached(BitsOf(input), 8, 1);
    }
  }

  lemma EndReached(bits: seq<bool>, p: nat, k: nat)
    requires k > 0 && p + 8 * k > |bits|
    ensures ReadBytes(bits, p, k) == Err(EndOfData)
  {
    hide Value;
  }

  lemma OneByte(input: Bytes)
    requires |input| == 1
    ensures ReadBytes(BitsOf(input), 0, 1) == Ok(input[0], 8)
  {
    ByteAt(input, 0);
    assert BitsOf(input)[8 * 0..8 * 0 + 8] == BitsOf(input)[0..8];
    hide BitsOf, Value;
  }

  // What was accepted is accepted again without the bytes behind its checksum; with fewer bytes the data ends.
  lemma InputCut(input: Bytes, k: nat)
    requires k <= |input| && Deflate(input).Ok?
    ensures Deflate(input[..k]) == if Deflate(input).next <= 8 * k then Deflate(input) else Err(EndOfData)
  {
    hide BitsOf, Blocks, ReadBytes, Deflate, ValidHeader;
    Header(input);
    BehindHeader(input);
    var bits := BitsOf(input);
    var r := Blocks(bits, 16, []);
    OutputBound(bits, 16, []);
    BytesMove(bits, r.next, 4);
    if k < 2 {
      HardlyAnything(input[..k], input[1]);
    } else {
      BitsOfStart(input, k);
      BehindHeader(input[..k]);
      BlocksCut(bits, 8 * k, 16, []);
      BytesCut(bits, 8 * k, r.next, 4);
    }
  }
}
