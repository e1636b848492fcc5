/** What the decoder of zlib.rs computes, as functions of a bit sequence and a bit position. */
module InflateSpec {
  import opened Arith
  import opened BitStream
  import opened Collections
  import opened Huffman
  import opened HuffmanComplete

  const LENGTH_EXTRA_BITS: seq<nat> :=
    [0, 0, 0, 0, 0, 0, 0, 0, 1, 1, 1, 1, 2, 2, 2, 2, 3, 3, 3, 3, 4, 4, 4, 4, 5, 5, 5, 5, 0]
  const LENGTH_BASE: seq<nat> :=
    [3, 4, 5, 6, 7, 8, 9, 10, 11, 13, 15, 17, 19, 23, 27, 31, 35, 43, 51, 59, 67, 83, 99, 115, 131,
     163, 195, 227, 258]
  const DISTANCE_EXTRA_BITS: seq<nat> :=
    [0, 0, 0, 0, 1, 1, 2, 2, 3, 3, 4, 4, 5, 5, 6, 6, 7, 7, 8, 8, 9, 9, 10, 10, 11, 11, 12, 12, 13, 13]
  const DISTANCE_BASE: seq<nat> :=
    [1, 2, 3, 4, 5, 7, 9, 13, 17, 25, 33, 49, 65, 97, 129, 193, 257, 385, 513, 769, 1025, 1537,
     2049, 3073, 4097, 6145, 8193, 12289, 16385, 24577]
  const CODE_LENGTH_CODES_ORDER: seq<nat> := [16, 17, 18, 0, 8, 7, 9, 6, 10, 5, 11, 4, 12, 3, 13, 2, 14, 1, 15]

  const LENGTH_SYMBOLS := 29
  const DISTANCE_SYMBOLS := 30

  function LengthExtra(k: nat): nat
    requires k < LENGTH_SYMBOLS
  {
    LENGTH_EXTRA_BITS[k]
  }

  function LengthBase(k: nat): nat
    requires k < LENGTH_SYMBOLS
  {
    LENGTH_BASE[k]
  }

  function DistanceExtra(d: nat): nat
    requires d < DISTANCE_SYMBOLS
  {
    DISTANCE_EXTRA_BITS[d]
  }

  function DistanceBase(d: nat): (base: nat)
    requires d < DISTANCE_SYMBOLS
    ensures base > 0
  {
    DISTANCE_BASE[d]
  }

  // The byte loop of a back reference: each byte pushed can be read again by a later one.
  function CopyBack(out: Bytes, distance: nat, length: nat): (r: Bytes)
    requires 0 < distance <= |out|
    ensures |r| == |out| + length
    decreases length
  {
    if length == 0 then out
    else CopyBack(out + [out[|out| - distance]], distance, length - 1)
  }

  // The extra bits of a distance symbol, the check of the distance, and the copy.
  function Copy(bits: seq<bool>, p: nat, extraBits: nat, base: nat, length: nat, out: Bytes): Parsed<Bytes>
    requires base > 0
  {
    var (extra, q) :- ReadBits(bits, p, extraBits);
    if extra + base > |out| then Err(DistanceTooLarge) else Ok(CopyBack(out, extra + base, length), q)
  }

  // One <length, distance> pair, after its length symbol 257 + k.
  function Pair(bits: seq<bool>, p: nat, distances: Tree, k: nat, out: Bytes): Parsed<Bytes>
    requires distances.Node?
  {
    if k >= LENGTH_SYMBOLS then Err(InvalidLengthSymbol)
    else
      var (extra, p1) :- ReadBits(bits, p, LengthExtra(k));
      var (d, p2) :- Walk(distances, bits, p1);
      if d >= DISTANCE_SYMBOLS then Err(InvalidDistanceSymbol)
      else
        Copy(bits, p2, DistanceExtra(d), DistanceBase(d), extra + LengthBase(k), out)
  }

  // One round of the symbol loop: the output so far, and whether the block is over.
  datatype Round = Round(out: Bytes, over: bool)

  function SymbolRound(bits: seq<bool>, p: nat, literals: Tree, distances: Tree, out: Bytes): (r: Parsed<Round>)
    requires literals.Node? && distances.Node?
  {
    var (sym, p1) :- Walk(literals, bits, p);
    if sym <= 255 then Ok(Round(out + [sym], false), p1)
    else if sym == 256 then Ok(Round(out, true), p1)
    else
      var (r, p2) :- Pair(bits, p1, distances, sym - 257, out);
      Ok(Round(r, false), p2)
  }

  function BlockData(bits: seq<bool>, p: nat, literals: Tree, distances: Tree, out: Bytes): Parsed<Bytes>
    requires p <= |bits| && literals.Node? && distances.Node? && literals.symbol.None?
    decreases |bits| - p
  {
    RoundProgress(bits, p, literals, distances, out);
    var (r, q) :- SymbolRound(bits, p, literals, distances, out);
    if r.over then Ok(r.out, q) else BlockData(bits, q, literals, distances, r.out)
  }

  lemma PairProgress(bits: seq<bool>, p: nat, distances: Tree, k: nat, out: Bytes)
    requires p <= |bits| && distances.Node?
    ensures var r := Pair(bits, p, distances, k, out);
            r.Ok? ==> p <= r.next <= |bits| && |out| <= |r.value| <= |out| + 258
    ensures var r := Pair(bits, p, distances, k, out); r.Ok? && distances.symbol.None? ==> p < r.next
  {
    if Pair(bits, p, distances, k, out).Ok? {
      var p1 := ReadBits(bits, p, LengthExtra(k)).next;
      WalkProgress(distances, bits, p1);
      LengthBound(bits, p, k);
    }
  }

  // No length symbol with its extra bits names a length above 258.
  lemma LengthBound(bits: seq<bool>, p: nat, k: nat)
    requires k < LENGTH_SYMBOLS && p + LengthExtra(k) <= |bits|
    ensures 3 <= Value(bits[p..p + LengthExtra(k)]) + LengthBase(k) <= 258
  {
    ValueBound(bits[p..p + LengthExtra(k)]);
  }

  // Every round that does not fail takes at least one bit, because no symbol sits at the root of a tree.
  lemma RoundProgress(bits: seq<bool>, p: nat, literals: Tree, distances: Tree, out: Bytes)
    requires p <= |bits| && literals.Node? && distances.Node? && literals.symbol.None?
    ensures var r := SymbolRound(bits, p, literals, distances, out);
            r.Ok? ==> p < r.next <= |bits| && |out| <= |r.value.out|
    ensures var r := SymbolRound(bits, p, literals, distances, out);
            r.Ok? && distances.symbol.None? ==> |r.value.out| <= |out| + 129 * (r.next - p)
  {
    WalkProgress(literals, bits, p);
    var s := Walk(literals, bits, p);
    if s.Ok? && s.value > 256 {
      PairProgress(bits, s.next, distances, s.value - 257, out);
    }
  }

  // ----- Dynamic trees

  // The loop that fills the code length lengths in the transmission order, from the i-th on.
  function ReadLengthLengths(bits: seq<bool>, p: nat, i: nat, hclen: nat, bl: seq<nat>): Parsed<seq<nat>>
    requires i <= hclen <= 19 && |bl| == 19
    decreases hclen - i
  {
    if i == hclen then Ok(bl, p)
    else
      var (l, q) :- ReadBits(bits, p, 3);
      ReadLengthLengths(bits, q, i + 1, hclen, bl[OrderAt(i) := l])
  }

  function OrderAt(i: nat): (x: nat)
    requires i < 19
    ensures x < 19
  {
    CODE_LENGTH_CODES_ORDER[i]
  }

  // One code length symbol: what it appends to the list of code lengths.
  function LengthRound(bits: seq<bool>, p: nat, tree: Tree, bl: seq<nat>): Parsed<seq<nat>>
    requires tree.Node?
  {
    var (sym, p1) :- Walk(tree, bits, p);
    if sym <= 15 then Ok(bl + [sym], p1)
    else if sym == 16 then
      if bl == [] then Err(NoPreviousLength)
      else
        var (n, p2) :- ReadBits(bits, p1, 2);
        Ok(bl + Repeat(bl[|bl| - 1], n + 3), p2)
    else if sym == 17 then
      var (n, p2) :- ReadBits(bits, p1, 3);
      Ok(bl + Repeat(0, n + 3), p2)
    else if sym == 18 then
      var (n, p2) :- ReadBits(bits, p1, 7);
      Ok(bl + Repeat(0, n + 11), p2)
    else Err(InvalidSymbol)
  }

  // The list can get longer than wanted: the last run is not cut off.
  function ReadLengths(bits: seq<bool>, p: nat, tree: Tree, wanted: nat, bl: seq<nat>): (r: Parsed<seq<nat>>)
    requires p <= |bits| && tree.Node?
    ensures r.Ok? ==> |r.value| >= wanted
    decreases wanted - |bl|
  {
    if |bl| >= wanted then Ok(bl, p)
    else
      LengthProgress(bits, p, tree, bl);
      var (bl', q) :- LengthRound(bits, p, tree, bl);
      ReadLengths(bits, q, tree, wanted, bl')
  }

  lemma LengthProgress(bits: seq<bool>, p: nat, tree: Tree, bl: seq<nat>)
    requires p <= |bits| && tree.Node?
    ensures var r := LengthRound(bits, p, tree, bl);
            r.Ok? ==> p <= r.next <= |bits| && |r.value| > |bl| && bl <= r.value
    ensures var r := LengthRound(bits, p, tree, bl); r.Ok? && tree.symbol.None? ==> p < r.next
  {
    WalkProgress(tree, bits, p);
  }

  datatype Trees = Trees(literals: Tree, distances: Tree)

  const CODE_LENGTH_ALPHABET := Alphabet(19)
  const LITERAL_ALPHABET := Alphabet(286)
  const DISTANCE_ALPHABET := Alphabet(30)

  function TreesOf(bl: seq<nat>, hlit: nat): Trees
    requires hlit <= |bl|
  {
    Trees(BuildTree(bl[..hlit], LITERAL_ALPHABET), BuildTree(bl[hlit..], DISTANCE_ALPHABET))
  }

  datatype Header = Header(hlit: nat, hdist: nat, lengths: seq<nat>)

  // The three counts and the code length lengths.
  function ReadHeader(bits: seq<bool>, p: nat): Parsed<Header> {
    var (hlit, p1) :- ReadBits(bits, p, 5);
    var (hdist, p2) :- ReadBits(bits, p1, 5);
    var (hclen, p3) :- ReadBits(bits, p2, 4);
    FourBits(bits, p2);
    var (cl, p4) :- ReadLengthLengths(bits, p3, 0, hclen + 4, Repeat(0, 19));
    Ok(Header(hlit + 257, hdist + 1, cl), p4)
  }

  function DecodeTrees(bits: seq<bool>, p: nat): Parsed<Trees>
    requires p <= |bits|
  {
    HeaderProgress(bits, p);
    var (h, q) :- ReadHeader(bits, p);
    var tree := BuildTree(h.lengths, CODE_LENGTH_ALPHABET);
    var (bl, r) :- ReadLengths(bits, q, tree, h.hlit + h.hdist, []);
    Ok(TreesOf(bl, h.hlit), r)
  }

  lemma FourBits(bits: seq<bool>, p: nat)
    ensures ReadBits(bits, p, 4).Ok? ==> ReadBits(bits, p, 4).value <= 15
  {
    if p + 4 <= |bits| {
      ValueBound(bits[p..p + 4]);
    }
  }

  lemma {:induction false} LengthLengthsProgress(bits: seq<bool>, p: nat, i: nat, hclen: nat, bl: seq<nat>)
    requires i <= hclen <= 19 && |bl| == 19 && p <= |bits|
    ensures var r := ReadLengthLengths(bits, p, i, hclen, bl); r.Ok? ==> p <= r.next <= |bits| && |r.value| == 19
    decreases hclen - i
  {
    hide OrderAt, Value;
    if i != hclen && p + 3 <= |bits| {
      LengthLengthsProgress(bits, p + 3, i + 1, hclen, bl[OrderAt(i) := Value(bits[p..p + 3])]);
    }
  }

  lemma {:induction false} LengthsProgress(bits: seq<bool>, p: nat, tree: Tree, wanted: nat, bl: seq<nat>)
    requires p <= |bits| && tree.Node?
    ensures var r := ReadLengths(bits, p, tree, wanted, bl); r.Ok? ==> p <= r.next <= |bits|
    decreases wanted - |bl|
  {
    if |bl| < wanted {
      LengthProgress(bits, p, tree, bl);
      var r := LengthRound(bits, p, tree, bl);
      if r.Ok? {
        LengthsProgress(bits, r.next, tree, wanted, r.value);
      }
    }
  }

  lemma HeaderProgress(bits: seq<bool>, p: nat)
    requires p <= |bits|
    ensures var h := ReadHeader(bits, p); h.Ok? ==> p <= h.next <= |bits| && |h.value.lengths| == 19
  {
    hide ReadLengthLengths, Value;
    if p + 14 <= |bits| {
      FourBits(bits, p + 10);
      LengthLengthsProgress(bits, p + 14, 0, ReadBits(bits, p + 10, 4).value + 4, Repeat(0, 19));
    }
  }

  lemma TreesOfClear(bl: seq<nat>, hlit: nat)
    requires hlit <= |bl|
    ensures var t := TreesOf(bl, hlit); t.literals.Node? && t.literals.symbol.None?
    ensures var t := TreesOf(bl, hlit); t.distances.Node? && t.distances.symbol.None?
  {
    BuiltWellFormed(bl[..hlit], LITERAL_ALPHABET, hlit);
    BuiltWellFormed(bl[hlit..], DISTANCE_ALPHABET, |bl| - hlit);
  }

  lemma TreesProgress(bits: seq<bool>, p: nat)
    requires p <= |bits|
    ensures var r := DecodeTrees(bits, p);
            r.Ok? ==> p <= r.next <= |bits| && r.value.literals.Node? && r.value.distances.Node?
    ensures var r := DecodeTrees(bits, p);
            r.Ok? ==> r.value.literals.symbol.None? && r.value.distances.symbol.None?
  {
    hide ReadHeader, ReadLengths, TreesOf, BuildTree;
    HeaderProgress(bits, p);
    var h := ReadHeader(bits, p);
    if h.Ok? {
      var tree := BuildTree(h.value.lengths, CODE_LENGTH_ALPHABET);
      LengthsProgress(bits, h.next, tree, h.value.hlit + h.value.hdist, []);
      var bl := ReadLengths(bits, h.next, tree, h.value.hlit + h.value.hdist, []);
      if bl.Ok? {
        TreesOfClear(bl.value, h.value.hlit);
      }
    }
  }

  // ----- Blocks

  function FixedLengths(): seq<nat> { Repeat(8, 144) + Repeat(9, 112) + Repeat(7, 24) + Repeat(8, 8) }

  const FIXED_DISTANCES: seq<nat> := Repeat(5, 30)

  function ByteOf(bits: seq<bool>, p: nat): byte
    requires p + 8 <= |bits|
  {
    ValueBound(bits[p..p + 8]);
    assert Pow2(8) == 256;
    Value(bits[p..p + 8])
  }

  function StoredBytes(bits: seq<bool>, p: nat, n: nat): Bytes
    requires p + 8 * n <= |bits|
  {
    seq(n, i requires 0 <= i < n => ByteOf(bits, p + 8 * i))
  }

  function StoredData(bits: seq<bool>, p: nat, len: nat, out: Bytes): Parsed<Bytes> {
    if p + 8 * len <= |bits| then Ok(out + StoredBytes(bits, p, len), p + 8 * len) else Err(EndOfData)
  }

  function StoredBlock(bits: seq<bool>, p: nat, out: Bytes): Parsed<Bytes> {
    var (len, p1) :- ReadBytes(bits, p, 2);
    var (_, p2) :- ReadBytes(bits, p1, 2);
    StoredData(bits, p2, len, out)
  }

  function FixedBlock(bits: seq<bool>, p: nat, out: Bytes): Parsed<Bytes>
    requires p <= |bits|
  {
    BuiltWellFormed(FixedLengths(), LITERAL_ALPHABET, |FixedLengths()|);
    BlockData(bits, p, BuildTree(FixedLengths(), LITERAL_ALPHABET), BuildTree(FIXED_DISTANCES, DISTANCE_ALPHABET), out)
  }

  function DynamicBlock(bits: seq<bool>, p: nat, out: Bytes): Parsed<Bytes>
    requires p <= |bits|
  {
    TreesProgress(bits, p);
    var (trees, q) :- DecodeTrees(bits, p);
    BlockData(bits, q, trees.literals, trees.distances, out)
  }

  // One block after its final-block bit.
  function BlockBody(bits: seq<bool>, p: nat, out: Bytes): Parsed<Bytes>
    requires p <= |bits|
  {
    var (btype, q) :- ReadBits(bits, p, 2);
    if btype == 0 then StoredBlock(bits, q, out)
    else if btype == 1 then FixedBlock(bits, q, out)
    else if btype == 2 then DynamicBlock(bits, q, out)
    else Err(InvalidBlockType)
  }

  function Blocks(bits: seq<bool>, p: nat, out: Bytes): Parsed<Bytes>
    requires p <= |bits|
    decreases |bits| - p
  {
    var (bfinal, p1) :- ReadBit(bits, p);
    BodyProgress(bits, p1, out);
    var (out', q) :- BlockBody(bits, p1, out);
    if bfinal == 0 then Blocks(bits, q, out') else Ok(out', q)
  }

  lemma {:induction false} DataBound(bits: seq<bool>, p: nat, literals: Tree, distances: Tree, out: Bytes)
    requires p <= |bits| && literals.Node? && distances.Node?
    requires literals.symbol.None? && distances.symbol.None?
    ensures var r := BlockData(bits, p, literals, distances, out);
            r.Ok? ==> p < r.next <= |bits| && |r.value| <= |out| + 129 * (r.next - p)
    decreases |bits| - p
  {
    RoundProgress(bits, p, literals, distances, out);
    var r := SymbolRound(bits, p, literals, distances, out);
    if r.Ok? && !r.value.over {
      DataBound(bits, r.next, literals, distances, r.value.out);
    }
  }

  lemma FixedBound(bits: seq<bool>, p: nat, out: Bytes)
    requires p <= |bits|
    ensures var r := FixedBlock(bits, p, out); r.Ok? ==> p < r.next <= |bits| && |r.value| <= |out| + 129 * (r.next - p)
  {
    hide BlockData, BuildUpTo;
    BuiltWellFormed(FixedLengths(), LITERAL_ALPHABET, |FixedLengths()|);
    BuiltWellFormed(FIXED_DISTANCES, DISTANCE_ALPHABET, 30);
    DataBound(bits, p, BuildTree(FixedLengths(), LITERAL_ALPHABET), BuildTree(FIXED_DISTANCES, DISTANCE_ALPHABET), out);
  }

  lemma DynamicBound(bits: seq<bool>, p: nat, out: Bytes)
    requires p <= |bits|
    ensures var r := DynamicBlock(bits, p, out);
            r.Ok? ==> p < r.next <= |bits| && |r.value| <= |out| + 129 * (r.next - p)
  {
    hide BlockData, DecodeTrees;
    TreesProgress(bits, p);
    var r := DecodeTrees(bits, p);
    if r.Ok? {
      DataBound(bits, r.next, r.value.literals, r.value.distances, out);
    }
  }

  lemma BodyProgress(bits: seq<bool>, p: nat, out: Bytes)
    requires p <= |bits|
    ensures var r := BlockBody(bits, p, out);
            r.Ok? ==> p < r.next <= |bits| && |r.value| <= |out| + 129 * (r.next - p)
  {
    hide FixedBlock, DynamicBlock;
    if p + 2 <= |bits| {
      FixedBound(bits, p + 2, out);
      DynamicBound(bits, p + 2, out);
    }
  }

  // Every bit of input accounts for at most 129 bytes of output.
  lemma {:induction false} OutputBound(bits: seq<bool>, p: nat, out: Bytes)
    requires p <= |bits|
    ensures var r := Blocks(bits, p, out);
            r.Ok? ==> p < r.next <= |bits| && |r.value| <= |out| + 129 * (r.next - p)
    decreases |bits| - p
  {
    hide BlockBody;
    if p < |bits| {
      BodyProgress(bits, p + 1, out);
      var r := BlockBody(bits, p + 1, out);
      if r.Ok? && !bits[p] {
        OutputBound(bits, r.next, r.value);
      }
    }
  }

  // ----- The zlib container of RFC 1950

  function Deflate(input: Bytes): Parsed<Bytes> {
    var bits := BitsOf(input);
    var (cmf, p1) :- ReadBytes(bits, 0, 1);
    if cmf % 16 != 8 then Err(InvalidCompressionMethod)
    else if (cmf / 16) % 16 > 7 then Err(InvalidCompressionInfo)
    else
      var (flg, p2) :- ReadBytes(bits, p1, 1);
      if (cmf * 256 + flg) % 31 != 0 then Err(HeaderChecksum)
      else if (flg / 32) % 2 != 0 then Err(PresetDictionary)
      else
        var (out, p3) :- Blocks(bits, p2, []);
        var (_, p4) :- ReadBytes(bits, p3, 4);
        Ok(out, p4)
  }

  // A whole stream expands at most 1032 times.
  lemma DeflateBound(input: Bytes)
    ensures var r := Deflate(input); r.Ok? ==> r.next % 8 == 0 && r.next / 8 <= |input| && |r.value| <= 1032 * |input|
  {
    hide Blocks, BitsOf, Value;
    var bits := BitsOf(input);
    if |bits| >= 16 {
      OutputBound(bits, 16, []);
    }
  }
}
